/** The values on the graph offer every tree that the machine can build: nothing is lost in merging. */
module AllTrees {
  import opened Grammars
  import opened LrMachine
  import opened ValuedMachine
  import opened Gss
  import opened PathQueue
  import opened Worklist
  import opened ExactlyOnce
  import opened Stacks
  import opened CompleteForest
  import opened ShiftPhase
  import opened YieldThenMerge
  import opened DeterminDepth
  import opened MiniLr

  // ---------------------------------------------------------------- choosing alternatives

  /** `t` is `tree` with one alternative chosen at every merge. */
  ghost predicate Chooses(tree: Tree, t: Tree) {
    match tree
    case Leaf(_) => t == tree
    case Node(p, kids) => t.Node? && t.prod == p && ChoosesAll(kids, t.kids)
    case Alt(left, right) => Chooses(left, t) || Chooses(right, t)
  }

  ghost predicate ChoosesAll(f: Forest, ts: Forest) {
    match f
    case Nil => ts.Nil?
    case Cons(head, tail) => ts.Cons? && Chooses(head, ts.head) && ChoosesAll(tail, ts.tail)
  }

  /** Whatever is chosen is a parse tree of the same tokens. */
  lemma {:induction false} ChosenProduces(g: Grammar, tree: Tree, t: Tree, x: Symbol)
    requires Produces(g, tree, x) && Chooses(tree, t)
    ensures Plain(t) && Produces(g, t, x) && Yield(t) == Yield(tree)
    decreases tree
  {
    match tree
    case Leaf(_) =>
    case Node(p, kids) => ChosenProducesAll(g, kids, t.kids, g.prods[p].rhs);
    case Alt(left, right) =>
      if Chooses(left, t) {
        ChosenProduces(g, left, t, x);
      } else {
        ChosenProduces(g, right, t, x);
      }
  }

  lemma {:induction false} ChosenProducesAll(g: Grammar, f: Forest, ts: Forest, xs: seq<Symbol>)
    requires ProducesAll(g, f, xs) && ChoosesAll(f, ts)
    ensures PlainAll(ts) && ProducesAll(g, ts, xs) && Yields(ts) == Yields(f)
    decreases f
  {
    match f
    case Nil =>
    case Cons(head, tail) =>
      ChosenProduces(g, head, ts.head, xs[0]);
      ChosenProducesAll(g, tail, ts.tail, xs[1..]);
  }

  lemma {:induction false} OffersChosen(tree: Tree, v: Tree, t: Tree)
    requires Offers(tree, v) && Chooses(v, t)
    ensures Chooses(tree, t)
  {
    if tree != v {
      if Offers(tree.left, v) {
        OffersChosen(tree.left, v, t);
      } else {
        OffersChosen(tree.right, v, t);
      }
    }
  }

  /** `tree` is a parse tree of the input. */
  ghost predicate IsParse(g: Grammar, input: seq<nat>, tree: Tree) {
    g.prods != [] && Plain(tree) && Produces(g, tree, N(g.prods[0].lhs)) && Yield(tree) == input
  }

  /** Every choice of alternatives is a parse tree. */
  ghost predicate OnlyParses(g: Grammar, input: seq<nat>, treeTop: Tree) {
    forall tree :: Chooses(treeTop, tree) ==> IsParse(g, input, tree)
  }

  /** Every parse tree is a choice of alternatives. */
  ghost predicate AllParses(g: Grammar, input: seq<nat>, treeTop: Tree) {
    forall tree :: IsParse(g, input, tree) ==> Chooses(treeTop, tree)
  }

  // ---------------------------------------------------------------- stacks with trees on the graph

  ghost predicate ValueOn(links: Links, u: nat, v: nat, t: Tree) {
    (u, v) in links && Chooses(links[(u, v)].sval, t)
  }

  ghost predicate ValuesOn(links: Links, path: seq<nat>, ts: seq<Tree>) {
    |path| == |ts| + 1 && forall i, j :: 0 <= i < |ts| && j == i + 1 ==> ValueOn(links, path[j], path[i], ts[i])
  }

  ghost predicate Covered(w: Work, path: seq<nat>, a: Stack) {
    Spells(w.ns, w.tp, path, a.states) && ValuesOn(w.links, path, a.values)
  }

  /** Some path spells the states, and its links offer the trees. */
  ghost predicate Covers(w: Work, a: Stack) {
    exists path: seq<nat> :: Covered(w, path, a)
  }

  /** The values handed to a reduction offer what the machine pops. */
  lemma {:induction false} ValuesChosen(links: Links, chain: seq<nat>, ts: seq<Tree>)
    requires ValuesOn(links, chain, ts)
    ensures ChoosesAll(ValuesOf(links, chain), ToForest(ts))
    decreases |chain|
  {
    if |chain| > 1 {
      assert ValueOn(links, chain[1], chain[0], ts[0]);
      var rest, ts' := chain[1..], ts[1..];
      forall i, j | 0 <= i < |ts'| && j == i + 1 ensures ValueOn(links, rest[j], rest[i], ts'[i]) {
        assert ValueOn(links, chain[j + 1], chain[i + 1], ts[i + 1]);
      }
      ValuesChosen(links, rest, ts');
    }
  }

  lemma PartOfValues(links: Links, path: seq<nat>, ts: seq<Tree>, k: nat)
    requires ValuesOn(links, path, ts) && k <= |ts|
    ensures ValuesOn(links, path[k..], ts[k..]) && ValuesOn(links, path[..k + 1], ts[..k])
  {
    forall i, j | 0 <= i < |ts[k..]| && j == i + 1 ensures ValueOn(links, path[k..][j], path[k..][i], ts[k..][i]) {
      assert ValueOn(links, path[k + j], path[k + i], ts[k + i]);
    }
  }

  lemma OneMoreValue(links: Links, path: seq<nat>, ts: seq<Tree>, r: nat, t: Tree)
    requires ValuesOn(links, path, ts) && ValueOn(links, r, Last(path), t)
    ensures ValuesOn(links, path + [r], ts + [t])
  {
    var path', ts' := path + [r], ts + [t];
    forall i, j | 0 <= i < |ts'| && j == i + 1 ensures ValueOn(links, path'[j], path'[i], ts'[i]) {
      if i < |ts| {
        assert ValueOn(links, path[j], path[i], ts[i]);
      }
    }
  }

  // ---------------------------------------------------------------- nothing is lost

  ghost predicate Widens(a: Tree, b: Tree) {
    forall t :: Chooses(a, t) ==> Chooses(b, t)
  }

  ghost predicate ValuesWiden(links: Links, links': Links) {
    forall e :: e in links ==> e in links' && Widens(links[e].sval, links'[e].sval)
  }

  /** All paths to the frontier stay, and their values offer at least what they did. */
  ghost predicate PathsStay(w: Work, w': Work) {
    && (forall path, st :: Spells(w.ns, w.tp, path, st) ==> Spells(w'.ns, w'.tp, path, st))
    && ValuesWiden(w.links, w'.links)
  }

  lemma CoversStays(w: Work, w': Work, a: Stack)
    requires PathsStay(w, w') && Covers(w, a)
    ensures Covers(w', a)
  {
    var path: seq<nat> :| Covered(w, path, a);
    forall i, j | 0 <= i < |a.values| && j == i + 1 ensures ValueOn(w'.links, path[j], path[i], a.values[i]) {
      assert ValueOn(w.links, path[j], path[i], a.values[i]);
    }
    assert Covered(w', path, a);
  }

  lemma PathsStayOn(a: Work, b: Work, c: Work)
    requires PathsStay(a, b) && PathsStay(b, c)
    ensures PathsStay(a, c)
  {
  }

  lemma StepKeepsSpelling(ctx: Context, w: Work, done: iset<Path>, path: seq<nat>, st: seq<nat>)
    requires Shape(ctx, w) && Once(ctx, w, done) && w.queue != [] && Spells(w.ns, w.tp, path, st)
    ensures Ready(ctx.pt, w) && CanProcess(ctx, w, w.queue[0])
    ensures Spells(Step(ctx, w).ns, Step(ctx, w).tp, path, st)
  {
    var grew, r := StepOnce(ctx, w, done);
    if grew {
      PathStays(w.ns, Step(ctx, w).ns, r, w.queue[0].chain[0], path);
    }
  }

  lemma ShiftWidens(ctx: Context, w: Work, l: nat, b: nat, v: Tree)
    requires Ready(ctx.pt, w) && l < |w.ns| && (w.ns[l].state, b) in ctx.pt.goto
    requires forall r: nat, x: nat :: (r, x) in w.links ==> Linked(w.ns, r, x)
    ensures ValuesWiden(w.links, ShiftNonterminal(ctx, w, l, b, v).links)
  {
    match OutcomeOf(ctx, w, l, b)
    case NewNode =>
      assert forall x: nat :: !Linked(w.ns, |w.ns|, x);
    case _ =>
  }

  lemma StepWidens(ctx: Context, w: Work, done: iset<Path>)
    requires Shape(ctx, w) && Once(ctx, w, done) && w.queue != []
    ensures Ready(ctx.pt, w) && CanProcess(ctx, w, w.queue[0]) && ValuesWiden(w.links, Step(ctx, w).links)
  {
    ReadyToShift(ctx, w, done);
    YieldKeepsLinks(w.links, w.queue[0].chain);
    ShiftWidens(ctx, Yielded(w), w.queue[0].chain[0], LhsOf(ctx.pt, w.queue[0].prod), ReducedValue(w));
  }

  /** A step of the worklist loses no stack and no tree. */
  lemma StepKeepsTrees(ctx: Context, w: Work, done: iset<Path>)
    requires Shape(ctx, w) && Once(ctx, w, done) && w.queue != []
    ensures Ready(ctx.pt, w) && CanProcess(ctx, w, w.queue[0]) && PathsStay(w, Step(ctx, w))
  {
    StepWidens(ctx, w, done);
    forall path, st | Spells(w.ns, w.tp, path, st) ensures Spells(Step(ctx, w).ns, Step(ctx, w).tp, path, st) {
      StepKeepsSpelling(ctx, w, done, path, st);
    }
  }

  // ---------------------------------------------------------------- a finished phase offers every reduction

  /** What the machine builds next is on the graph, or cannot act on the token. */
  lemma BuildCovered(ctx: Context, w: Work, a: Stack, b: Stack)
    requires ForestDone(ctx, w) && Covers(w, a) && BuildStep(ctx.pt, ctx.token, a, b)
    requires ActionEntry(ctx.pt, Last(b.states), ctx.token) != Error
    ensures Covers(w, b)
  {
    var path: seq<nat> :| Covered(w, path, a);
    var q: nat :| BuildsBy(ctx.pt, ctx.token, a, b, q);
    var k := |path| - 1 - |ctx.pt.prods[q].rhs|;
    var p := Path(q, w.ns[path[k]].column, path[k..]);
    EnabledOnPath(ctx, w, path, k, p);
    var r: nat :| InForestAt(ctx, w, p, r);
    PushedOnPath(ctx, w, path, a, b, p, r);
  }

  lemma NodeOffered(ctx: Context, w: Work, p: Path, r: nat, ts: seq<Tree>)
    requires InForestAt(ctx, w, p, r) && ValuesOn(w.links, p.chain, ts)
    requires ActionEntry(ctx.pt, w.ns[r].state, ctx.token) != Error
    ensures ValueOn(w.links, r, p.chain[0], Node(p.prod, ToForest(ts)))
  {
    ValuesChosen(w.links, p.chain, ts);
    OffersChosen(w.links[(r, p.chain[0])].sval, Node(p.prod, ValuesOf(w.links, p.chain)), Node(p.prod, ToForest(ts)));
  }

  lemma GotoOnPath(ctx: Context, w: Work, path: seq<nat>, st: seq<nat>, st': seq<nat>, p: Path, r: nat)
    requires Spells(w.ns, w.tp, path, st) && ReducesBy(ctx.pt, ctx.token, st, st', p.prod) && ShiftedFor(ctx, w, p, r)
    requires p.chain == path[|path| - 1 - |ctx.pt.prods[p.prod].rhs|..]
    ensures w.ns[r].state == Last(st') && Linked(w.ns, r, path[|path| - 1 - |ctx.pt.prods[p.prod].rhs|])
  {
    var k := |path| - 1 - |ctx.pt.prods[p.prod].rhs|;
    assert Last(st[..|st| - |ctx.pt.prods[p.prod].rhs|]) == st[k] == w.ns[path[k]].state;
  }

  lemma PushedValues(ctx: Context, w: Work, path: seq<nat>, ts: seq<Tree>, k: nat, p: Path, r: nat)
    requires ValuesOn(w.links, path, ts) && k <= |ts| && p.chain == path[k..] && InForestAt(ctx, w, p, r)
    requires ActionEntry(ctx.pt, w.ns[r].state, ctx.token) != Error
    ensures ValuesOn(w.links, path[..k + 1] + [r], ts[..k] + [Node(p.prod, ToForest(ts[k..]))])
  {
    PartOfValues(w.links, path, ts, k);
    NodeOffered(ctx, w, p, r, ts[k..]);
    assert Last(path[..k + 1]) == p.chain[0];
    OneMoreValue(w.links, path[..k + 1], ts[..k], r, Node(p.prod, ToForest(ts[k..])));
  }

  lemma CoveredBy(w: Work, path: seq<nat>, st: seq<nat>, ts: seq<Tree>)
    requires Spells(w.ns, w.tp, path, st) && ValuesOn(w.links, path, ts)
    ensures Covers(w, Stack(st, ts))
  {
    assert Covered(w, path, Stack(st, ts));
  }

  lemma PushedOnPath(ctx: Context, w: Work, path: seq<nat>, a: Stack, b: Stack, p: Path, r: nat)
    requires Covered(w, path, a) && BuildsBy(ctx.pt, ctx.token, a, b, p.prod) && InForestAt(ctx, w, p, r)
    requires ActionEntry(ctx.pt, Last(b.states), ctx.token) != Error
    requires p.chain == path[|path| - 1 - |ctx.pt.prods[p.prod].rhs|..]
    ensures Covers(w, b)
  {
    var k := |path| - 1 - |ctx.pt.prods[p.prod].rhs|;
    GotoOnPath(ctx, w, path, a.states, b.states, p, r);
    PushedValues(ctx, w, path, a.values, k, p, r);
    SpelledOn(ctx, w, path, a.states, b.states, p.prod, r, k);
    CoveredBy(w, path[..k + 1] + [r], b.states, a.values[..k] + [Node(p.prod, ToForest(a.values[k..]))]);
  }

  lemma SpelledOn(ctx: Context, w: Work, path: seq<nat>, st: seq<nat>, st': seq<nat>, q: nat, r: nat, k: nat)
    requires Spells(w.ns, w.tp, path, st) && ReducesBy(ctx.pt, ctx.token, st, st', q)
    requires k == |path| - 1 - |ctx.pt.prods[q].rhs|
    requires r < |w.ns| && r in w.tp && Linked(w.ns, r, path[k]) && w.ns[r].state == Last(st')
    ensures Spells(w.ns, w.tp, path[..k + 1] + [r], st')
  {
    SubPath(w.ns, path, 0, k + 1);
    assert path[0..k + 1] == path[..k + 1];
    PushOnPath(w, path[..k + 1], r);
    assert StatesOf(w.ns, path[..k + 1] + [r]) == st[..k + 1] + [w.ns[r].state];
  }

  /** A stack that goes on to act on the token has an action for it. */
  lemma {:induction false} RunCovered(ctx: Context, w: Work, run: seq<Stack>)
    requires ForestDone(ctx, w) && BuildRun(ctx.pt, ctx.token, run) && Covers(w, run[0])
    requires Last(run).states != [] && ActionEntry(ctx.pt, Last(Last(run).states), ctx.token) != Error
    ensures Covers(w, Last(run))
    decreases |run|
  {
    if |run| > 1 {
      var k := |run| - 1;
      assert BuildStep(ctx.pt, ctx.token, run[k - 1], run[k]);
      RunCovered(ctx, w, run[..k]);
      BuildCovered(ctx, w, run[k - 1], run[k]);
    }
  }

  // ---------------------------------------------------------------- the shift

  lemma ShiftCovered(ctx: Context, w: Work, w': Work, a: Stack, c: Stack)
    requires Shape(ctx, w) && ShiftedFrom(ctx, w, Members(w.tp), w') && Covers(w, a) && Shifts(ctx.pt, ctx.token, a, c)
    ensures Covers(w', c)
  {
    var path: seq<nat> :| Covered(w, path, a);
    var u := ShiftedPath(ctx, w, w', path, a.states);
    forall i, j | 0 <= i < |a.values| && j == i + 1 ensures ValueOn(w'.links, path[j], path[i], a.values[i]) {
      assert ValueOn(w.links, path[j], path[i], a.values[i]);
    }
    assert !Linked(w.ns, u, Last(path));
    OneMoreValue(w'.links, path, a.values, u, Leaf(ctx.token));
    assert Covered(w', path + [u], c);
  }

  lemma ShiftedPath(ctx: Context, w: Work, w': Work, path: seq<nat>, st: seq<nat>) returns (u: nat)
    requires Shape(ctx, w) && ShiftedFrom(ctx, w, Members(w.tp), w') && Spells(w.ns, w.tp, path, st)
    requires ShiftDest(ActionEntry(ctx.pt, Last(st), ctx.token)).Some?
    ensures |w.ns| <= u && (u, Last(path)) in w'.links && (u, Last(path)) !in w.links
    ensures Spells(w'.ns, w'.tp, path + [u], st + [ShiftDest(ActionEntry(ctx.pt, Last(st), ctx.token)).value])
  {
    var v, d := Last(path), ShiftDest(ActionEntry(ctx.pt, Last(st), ctx.token)).value;
    assert ShiftOf(ctx, w.ns, v) == Some(d) && v in Members(w.tp);
    u :| |w.ns| <= u < |w'.ns| && w'.ns[u].state == d;
    assert IsShiftLink(ctx, w, Members(w.tp), w', u, v);
    forall i | 0 <= i < |path| ensures w'.ns[path[i]] == w.ns[path[i]] {
    }
    forall i, j | 0 <= i < j < |path| && j == i + 1 ensures Linked(w'.ns, path[j], path[i]) {
      assert Linked(w.ns, path[j], path[i]);
    }
    assert w'.tp[u - |w.ns|] == u;
  }

  // ---------------------------------------------------------------- one token

  /** What the machine can hold after the token, with trees on the graph before, is on the graph afterwards. */
  ghost predicate TreesFollow(pt: ParseTables, t: nat, w: Work, w': Work) {
    forall b, c :: Covers(w, b) && Reads(pt, t, b, c) ==> Covers(w', c)
  }

  /** ... or can still be reached from what is. */
  ghost predicate TreesRemain(pt: ParseTables, t: nat, w: Work, w': Work) {
    forall b, c :: Covers(w, b) && Reads(pt, t, b, c) ==> CanStillRead(pt, t, w', c)
  }

  ghost predicate CanStillRead(pt: ParseTables, t: nat, w: Work, c: Stack) {
    exists b :: Covers(w, b) && Reads(pt, t, b, c)
  }

  lemma FullAlgorithmFollows(ctx: Context, w: Work, reduced: Work, w': Work)
    requires PathsStay(w, reduced) && Shape(ctx, reduced) && ForestDone(ctx, reduced)
    requires ShiftedFrom(ctx, reduced, Members(reduced.tp), w')
    ensures TreesFollow(ctx.pt, ctx.token, w, w')
  {
    forall b, c | Covers(w, b) && Reads(ctx.pt, ctx.token, b, c) ensures Covers(w', c) {
      CoversStays(w, reduced, b);
      var a :| Builds(ctx.pt, ctx.token, b, a) && Shifts(ctx.pt, ctx.token, a, c);
      var run :| BuildRun(ctx.pt, ctx.token, run) && run[0] == b && Last(run) == a;
      RunCovered(ctx, reduced, run);
      ShiftCovered(ctx, reduced, w', a, c);
    }
  }

  lemma StillThere(pt: ParseTables, t: nat, w: Work)
    ensures TreesRemain(pt, t, w, w)
  {
    forall b, c | Covers(w, b) && Reads(pt, t, b, c) ensures CanStillRead(pt, t, w, c) {
    }
  }

  lemma RemainThenFollow(pt: ParseTables, t: nat, w: Work, w1: Work, w': Work)
    ensures TreesRemain(pt, t, w, w1) && TreesFollow(pt, t, w1, w') ==> TreesFollow(pt, t, w, w')
  {
    if TreesRemain(pt, t, w, w1) && TreesFollow(pt, t, w1, w') {
      forall b, c | Covers(w, b) && Reads(pt, t, b, c) ensures Covers(w', c) {
        assert CanStillRead(pt, t, w1, c);
      }
    }
  }

  lemma RemainTwice(pt: ParseTables, t: nat, w: Work, w1: Work, w2: Work)
    requires TreesRemain(pt, t, w, w1) && TreesRemain(pt, t, w1, w2)
    ensures TreesRemain(pt, t, w, w2)
  {
    forall b, c | Covers(w, b) && Reads(pt, t, b, c) ensures CanStillRead(pt, t, w2, c) {
      assert CanStillRead(pt, t, w1, c);
      var b1 :| Covers(w1, b1) && Reads(pt, t, b1, c);
    }
  }

  // ---------------------------------------------------------------- the whole input

  /** Everything the machine can build while reading the first `n` tokens is on the graph. */
  ghost predicate ReadCovered(pt: ParseTables, input: seq<nat>, n: nat, w: Work)
    requires n <= |input|
  {
    forall a :: a in ReadStacks(pt, input, n) ==> Covers(w, a)
  }

  lemma CoveredNext(pt: ParseTables, input: seq<nat>, n: nat, w: Work, w': Work)
    requires n < |input|
    ensures ReadCovered(pt, input, n, w) && TreesFollow(pt, input[n], w, w') ==> ReadCovered(pt, input, n + 1, w')
  {
    if ReadCovered(pt, input, n, w) && TreesFollow(pt, input[n], w, w') {
      forall c | c in ReadStacks(pt, input, n + 1) ensures Covers(w', c) {
        var b :| b in ReadStacks(pt, input, n) && Reads(pt, input[n], b, c);
      }
    }
  }

  lemma StartCovered(pt: ParseTables, input: seq<nat>, w: Work)
    requires w.ns == [StackNode(START, 0, [])] && w.tp == [0]
    ensures ReadCovered(pt, input, 0, w)
  {
    assert Covered(w, [0], Stack([START], []));
  }

  lemma TopPath(w: Work, path: seq<nat>, x: nat, y: nat)
    requires IsPath(w.ns, path) && path[0] == 0 && Last(path) == x && x < |w.ns| && y < |w.ns| && 0 < |w.ns|
    requires w.ns[x].sibs == [y] && w.ns[y].sibs == [0] && w.ns[0].sibs == []
    ensures path == [0, y, x]
  {
    var k := |path| - 1;
    assert path[k] == x && x != 0;
    assert Linked(w.ns, path[k], path[k - 1]);
    assert path[k - 1] == y && y != 0;
    assert Linked(w.ns, path[k - 1], path[k - 2]);
    LinkBelow(w.ns, path, k - 2);
  }

  lemma LinkBelow(ns: Pool, path: seq<nat>, i: nat)
    requires IsPath(ns, path) && i < |path|
    ensures i > 0 ==> Linked(ns, path[i], path[i - 1])
  {
  }

  lemma TopValues(links: Links, x: nat, y: nat)
    requires (x, y) in links && (y, 0) in links
    ensures ValuesOf(links, [0, y, x]) == Cons(links[(y, 0)].sval, Cons(links[(x, y)].sval, Nil))
  {
    assert [0, y, x][1..] == [y, x] && [y, x][1..] == [x];
    assert ValuesOf(links, [y, x]) == Cons(links[(x, y)].sval, ValuesOf(links, [x]));
  }

  /** The tree put together at the end offers every tree built by reading the whole input. */
  lemma TopOffers(w: Work, a: Stack, x: nat, y: nat)
    requires Covers(w, a) && w.tp == [x] && x < |w.ns| && y < |w.ns| && 0 < |w.ns|
    requires w.ns[x].sibs == [y] && w.ns[y].sibs == [0] && w.ns[0].sibs == [] && (x, y) in w.links && (y, 0) in w.links
    ensures Chooses(Node(0, Cons(w.links[(y, 0)].sval, Cons(w.links[(x, y)].sval, Nil))), Node(0, ToForest(a.values)))
  {
    var path: seq<nat> :| Covered(w, path, a);
    TopPath(w, path, x, y);
    ValuesChosen(w.links, path, a.values);
    TopValues(w.links, x, y);
  }

  // ---------------------------------------------------------------- the fast path

  /** The first step of a run that does not shift at once. */
  lemma FirstBuild(pt: ParseTables, t: nat, b: Stack, c: Stack) returns (b': Stack)
    requires Reads(pt, t, b, c) && b.states != [] && ShiftDest(ActionEntry(pt, Last(b.states), t)).None?
    ensures BuildStep(pt, t, b, b') && Reads(pt, t, b', c)
  {
    var a :| Builds(pt, t, b, a) && Shifts(pt, t, a, c);
    var run :| BuildRun(pt, t, run) && run[0] == b && Last(run) == a;
    b' := run[1];
    assert BuildStep(pt, t, run[0], run[1]);
    var rest := run[1..];
    forall i, j | 0 <= i < j < |rest| && j == i + 1 ensures BuildStep(pt, t, rest[i], rest[j]) {
      assert BuildStep(pt, t, run[i + 1], run[j + 1]);
    }
    assert BuildRun(pt, t, rest) && rest[0] == b' && Last(rest) == a;
    assert Builds(pt, t, b', a);
  }

  /** A fast reduction builds what the machine builds. */
  lemma DetReduceCovers(ctx: Context, w: Work, p: nat, b: Stack, b': Stack)
    requires AtRest(ctx, w) && CanDetReduce(ctx, w, p) && DetReady(ctx, w, p)
    requires Covers(w, b) && BuildStep(ctx.pt, ctx.token, b, b')
    ensures Covers(DetReduce(ctx, w, p), b')
  {
    var path: seq<nat> :| Covered(w, path, b);
    var q: nat :| BuildsBy(ctx.pt, ctx.token, b, b', q);
    OnlyReduction(ctx, w, p, path, b.states, b'.states, q);
    DetReduceShape(ctx, w, p);
    PoppedAndPushed(ctx, w, p, path, b, b');
  }

  lemma PoppedAndPushed(ctx: Context, w: Work, p: nat, path: seq<nat>, b: Stack, b': Stack)
    requires Shape(ctx, w) && DetReady(ctx, w, p) && Covered(w, path, b) && BuildsBy(ctx.pt, ctx.token, b, b', p)
    requires path[|path| - 1 - |ctx.pt.prods[p].rhs|..] == PoppedChain(ctx, w, p)
    requires var l := PoppedChain(ctx, w, p)[0];
             Last(b'.states) == ctx.pt.goto[(w.ns[l].state, LhsOf(ctx.pt, p))]
               && Grown(w.ns, DetReduce(ctx, w, p).ns, |w.ns|, l)
    ensures Covers(DetReduce(ctx, w, p), b')
  {
    var w', k := DetReduce(ctx, w, p), |path| - 1 - |ctx.pt.prods[p].rhs|;
    assert path[k] == path[k..][0];
    DetValues(ctx, w, p, path, b.values, k);
    DetSpells(ctx, w, w', path[k], path, b.states, b'.states, p);
    assert path[..k + 1] == path[..|path| - |ctx.pt.prods[p].rhs|];
    assert Covered(w', path[..k + 1] + [|w.ns|], b');
  }

  lemma DetValues(ctx: Context, w: Work, p: nat, path: seq<nat>, ts: seq<Tree>, k: nat)
    requires Shape(ctx, w) && DetReady(ctx, w, p) && ValuesOn(w.links, path, ts)
    requires k < |path| && path[k..] == PoppedChain(ctx, w, p)
    ensures ValuesOn(DetReduce(ctx, w, p).links, path[..k + 1] + [|w.ns|], ts[..k] + [Node(p, ToForest(ts[k..]))])
  {
    var links' := DetReduce(ctx, w, p).links;
    PartOfValues(w.links, path, ts, k);
    ValuesChosen(w.links, path[k..], ts[k..]);
    var left, ts' := path[..k + 1], ts[..k];
    forall i, j | 0 <= i < |ts'| && j == i + 1 ensures ValueOn(links', left[j], left[i], ts'[i]) {
      assert ValueOn(w.links, left[j], left[i], ts'[i]) && Linked(w.ns, left[j], left[i]);
    }
    OneMoreValue(links', left, ts', |w.ns|, Node(p, ToForest(ts[k..])));
  }

  lemma DetSpells(ctx: Context, w: Work, w': Work, l: nat, path: seq<nat>, st: seq<nat>, st': seq<nat>, q: nat)
    requires Grown(w.ns, w'.ns, |w.ns|, l) && w'.tp == [|w.ns|]
    requires Spells(w.ns, w.tp, path, st) && ReducesBy(ctx.pt, ctx.token, st, st', q)
    requires path[|path| - 1 - |ctx.pt.prods[q].rhs|] == l && w'.ns[|w.ns|].state == Last(st')
    ensures Spells(w'.ns, w'.tp, path[..|path| - |ctx.pt.prods[q].rhs|] + [|w.ns|], st')
  {
    var left := path[..|path| - |ctx.pt.prods[q].rhs|];
    SubPath(w.ns, path, 0, |left|);
    assert path[0..|left|] == left;
    PathStays(w.ns, w'.ns, |w.ns|, l, left);
    PushOnPath(w', left, |w.ns|);
    assert StatesOf(w'.ns, left + [|w.ns|]) == st[..|left|] + [Last(st')];
  }

  lemma DetReduceRemains(ctx: Context, w: Work, p: nat)
    requires AtRest(ctx, w) && CanDetReduce(ctx, w, p) && DetReady(ctx, w, p)
    ensures TreesRemain(ctx.pt, ctx.token, w, DetReduce(ctx, w, p))
  {
    forall b, c | Covers(w, b) && Reads(ctx.pt, ctx.token, b, c)
      ensures CanStillRead(ctx.pt, ctx.token, DetReduce(ctx, w, p), c)
    {
      var path: seq<nat> :| Covered(w, path, b);
      assert Last(b.states) == w.ns[w.tp[0]].state;
      var b' := FirstBuild(ctx.pt, ctx.token, b, c);
      DetReduceCovers(ctx, w, p, b, b');
    }
  }

  /** A lone shift. */
  lemma DetShiftFollows(ctx: Context, w: Work, w': Work)
    requires Shape(ctx, w) && |w.tp| == 1 && ActionEntry(ctx.pt, w.ns[w.tp[0]].state, ctx.token).Shift?
    requires ShiftedFrom(ctx, w, Members(w.tp), w')
    ensures TreesFollow(ctx.pt, ctx.token, w, w')
  {
    forall b, c | Covers(w, b) && Reads(ctx.pt, ctx.token, b, c) ensures Covers(w', c) {
      var path: seq<nat> :| Covered(w, path, b);
      assert Last(b.states) == w.ns[w.tp[0]].state;
      ShiftsAtOnce(ctx.pt, ctx.token, b, c);
      ShiftCovered(ctx, w, w', b, c);
    }
  }

  lemma ShiftsAtOnce(pt: ParseTables, t: nat, b: Stack, c: Stack)
    requires Reads(pt, t, b, c) && b.states != [] && ActionEntry(pt, Last(b.states), t).Shift?
    ensures Shifts(pt, t, b, c)
  {
    var a :| Builds(pt, t, b, a) && Shifts(pt, t, a, c);
    var run :| BuildRun(pt, t, run) && run[0] == b && Last(run) == a;
    if |run| > 1 {
      NothingToBuild(pt, t, run[0], run[1]);
    }
  }

  lemma NothingToBuild(pt: ParseTables, t: nat, b: Stack, b': Stack)
    requires b.states != [] && ActionEntry(pt, Last(b.states), t).Shift?
    ensures !BuildStep(pt, t, b, b')
  {
  }
}
