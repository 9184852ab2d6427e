/** The fast path hangs on a token only if no stack survives it, and the tables have a loop under it. */
module FastPathLoops {
  import opened Grammars
  import opened LrMachine
  import opened Gss
  import opened Worklist
  import opened ExactlyOnce
  import opened Stacks
  import opened YieldThenMerge
  import opened DeterminDepth
  import opened MiniLr
  import opened StackLoops

  // ---------------------------------------------------------------- from stacks to the graph

  lemma {:induction false} HaltsOnGss(ctx: Context, w: Work, st: seq<nat>, n: nat)
    requires AtRest(ctx, w) && st in GssStacks(w.ns, w.tp) && Halts(ctx.pt, ctx.token, st, n)
    ensures DetHalts(ctx, w, n)
    decreases n, 1
  {
    forall p: nat | CanDetReduce(ctx, w, p) && DetKept(ctx, w, p)
      ensures n > 0 && (DetReduceShape(ctx, w, p); DetHalts(ctx, DetReduce(ctx, w, p), n - 1))
    {
      HaltsAfter(ctx, w, st, n, p);
    }
  }

  lemma {:induction false} HaltsAfter(ctx: Context, w: Work, st: seq<nat>, n: nat, p: nat)
    requires AtRest(ctx, w) && st in GssStacks(w.ns, w.tp) && Halts(ctx.pt, ctx.token, st, n) && CanDetReduce(ctx, w, p)
    ensures n > 0 && (DetReduceShape(ctx, w, p); DetHalts(ctx, DetReduce(ctx, w, p), n - 1))
    decreases n, 0
  {
    DetReduceShape(ctx, w, p);
    var st' := NextOnGss(ctx, w, st, n, p);
    HaltsOnGss(ctx, DetReduce(ctx, w, p), st', n - 1);
  }

  lemma NextOnGss(ctx: Context, w: Work, st: seq<nat>, n: nat, p: nat) returns (st': seq<nat>)
    requires AtRest(ctx, w) && st in GssStacks(w.ns, w.tp) && CanDetReduce(ctx, w, p) && DetReady(ctx, w, p)
    requires Halts(ctx.pt, ctx.token, st, n)
    ensures n > 0 && Halts(ctx.pt, ctx.token, st', n - 1)
    ensures st' in GssStacks(DetReduce(ctx, w, p).ns, DetReduce(ctx, w, p).tp)
  {
    TopOfAll(w, st);
    GssStackIsPath(ctx, w, st);
    NextOnPath(ctx.pt, ctx.token, st, p);
    st' := Next(ctx.pt, ctx.token, st).value;
    assert ReducesBy(ctx.pt, ctx.token, st, st', p);
    DetReduceStacks(ctx, w, p, st, st');
  }

  lemma GssStackIsPath(ctx: Context, w: Work, st: seq<nat>)
    requires GraphOK(ctx.pt, w.ns) && st in GssStacks(w.ns, w.tp)
    ensures StackPath(ctx.pt, st)
  {
    var path :| Spells(w.ns, w.tp, path, st);
    PathStates(ctx.pt, w.ns, path);
    assert NodeOK(ctx.pt, w.ns, 0);
  }

  /** Without a loop under the token the fast path stops. */
  lemma NoLoopHalts(ctx: Context, w: Work) returns (n: nat)
    requires AtRest(ctx, w) && !Loops(ctx.pt, ctx.token)
    ensures DetHalts(ctx, w, n)
  {
    if |w.tp| == 1 {
      var path := ReachesBottom(ctx.pt, w.ns, w.tp[0]);
      var st := StatesOf(w.ns, path);
      assert Spells(w.ns, w.tp, path, st);
      GssStackIsPath(ctx, w, st);
      LoopsExactly(ctx.pt, ctx.token);
      assert HaltsAtLast(ctx.pt, ctx.token, st);
      n :| Halts(ctx.pt, ctx.token, st, n);
      HaltsOnGss(ctx, w, st, n);
    } else {
      n := 0;
    }
  }

  /** Nor does it run on if some stack survives the token. */
  lemma FuelFor(ctx: Context, w: Work) returns (n: nat)
    requires AtRest(ctx, w)
    requires Loops(ctx.pt, ctx.token) ==> AfterToken(ctx.pt, ctx.token, GssStacks(w.ns, w.tp)) != iset{}
    ensures DetHalts(ctx, w, n)
  {
    if Loops(ctx.pt, ctx.token) {
      n := ViableTokenHalts(ctx, w);
    } else {
      n := NoLoopHalts(ctx, w);
    }
  }

  // ---------------------------------------------------------------- from the graph to stacks

  /** The graph above the bottom is one stack, whatever else lies around. */
  ghost predicate OnlyStack(w: Work, path: seq<nat>) {
    && IsPath(w.ns, path) && path[0] == 0 && w.tp == [Last(path)]
    && forall i, j :: 0 <= i < j < |path| && j == i + 1 ==> w.ns[path[j]].sibs == [path[i]] && path[i] < path[j]
  }

  lemma {:induction false} DepthOfOnly(ctx: Context, w: Work, path: seq<nat>, i: nat)
    requires Shape(ctx, w) && OnlyStack(w, path) && i < |path|
    ensures Depth(w.ns, path[i]) == i + 1
    decreases i
  {
    if i == 0 {
      assert NodeOK(ctx.pt, w.ns, 0);
    } else {
      DepthOfOnly(ctx, w, path, i - 1);
    }
  }

  /** The fast path may make the next reduction of the stack. */
  lemma OnlyCanReduce(ctx: Context, w: Work, path: seq<nat>) returns (p: nat)
    requires AtRest(ctx, w) && OnlyStack(w, path) && Next(ctx.pt, ctx.token, StatesOf(w.ns, path)).Some?
    ensures CanDetReduce(ctx, w, p) && |ctx.pt.prods[p].rhs| < |path|
    ensures PoppedChain(ctx, w, p) == path[|path| - 1 - |ctx.pt.prods[p].rhs|..]
  {
    var k := |path| - 1;
    p := ActionEntry(ctx.pt, w.ns[path[k]].state, ctx.token).prod;
    DepthOfOnly(ctx, w, path, k);
    var chain := path[k - |ctx.pt.prods[p].rhs|..];
    SubPath(w.ns, path, k - |ctx.pt.prods[p].rhs|, |path|);
    assert path[k - |ctx.pt.prods[p].rhs|..|path|] == chain;
    ShallowPathIsUnique(ctx.pt, w.ns, path[k], |ctx.pt.prods[p].rhs|, chain);
  }

  lemma OnlyStackAfter(ctx: Context, w: Work, path: seq<nat>, p: nat) returns (path': seq<nat>)
    requires AtRest(ctx, w) && OnlyStack(w, path) && CanDetReduce(ctx, w, p) && |ctx.pt.prods[p].rhs| < |path|
    requires PoppedChain(ctx, w, p) == path[|path| - 1 - |ctx.pt.prods[p].rhs|..] && DetReady(ctx, w, p)
    ensures var w' := DetReduce(ctx, w, p);
            OnlyStack(w', path') && Next(ctx.pt, ctx.token, StatesOf(w.ns, path)) == Some(StatesOf(w'.ns, path'))
  {
    var w', k := DetReduce(ctx, w, p), |path| - |ctx.pt.prods[p].rhs|;
    path' := path[..k] + [|w.ns|];
    assert Last(path[..k]) == PoppedChain(ctx, w, p)[0];
    OnlyStackPushed(w, w', path, path[..k]);
    PushedStates(w.ns, w'.ns, path, k);
    NextOfStack(ctx.pt, ctx.token, StatesOf(w.ns, path), p);
  }

  lemma NextOfStack(pt: ParseTables, t: nat, st: seq<nat>, p: nat)
    requires st != [] && ActionEntry(pt, Last(st), t) == Reduce(p) && p < |pt.prods| && |pt.prods[p].rhs| < |st|
    requires (st[|st| - 1 - |pt.prods[p].rhs|], pt.prods[p].lhs) in pt.goto
    ensures var k := |st| - |pt.prods[p].rhs|;
            Next(pt, t, st) == Some(st[..k] + [pt.goto[(st[k - 1], pt.prods[p].lhs)]])
  {
    assert Last(st[..|st| - |pt.prods[p].rhs|]) == st[|st| - 1 - |pt.prods[p].rhs|];
  }

  lemma PushedStates(ns: Pool, ns': Pool, path: seq<nat>, k: nat)
    requires (forall i :: 0 <= i < |path| ==> path[i] < |ns|) && k <= |path| && |ns'| == |ns| + 1 && ns'[..|ns|] == ns
    ensures forall i :: 0 <= i < |path[..k] + [|ns|]| ==> (path[..k] + [|ns|])[i] < |ns'|
    ensures StatesOf(ns', path[..k] + [|ns|]) == StatesOf(ns, path)[..k] + [ns'[|ns|].state]
  {
    forall i | 0 <= i < k ensures ns'[path[i]] == ns[path[i]] {
      assert ns'[..|ns|][path[i]] == ns[path[i]];
    }
  }

  lemma OnlyStackPushed(w: Work, w': Work, path: seq<nat>, left: seq<nat>)
    requires OnlyStack(w, path) && left != [] && left <= path
    requires |w'.ns| == |w.ns| + 1 && w'.ns[..|w.ns|] == w.ns && w'.ns[|w.ns|].sibs == [Last(left)] && w'.tp == [|w.ns|]
    ensures OnlyStack(w', left + [|w.ns|])
  {
    var path' := left + [|w.ns|];
    forall i | 0 <= i < |left| ensures path'[i] == path[i] < |w.ns| && w'.ns[path[i]] == w.ns[path[i]] {
      assert w'.ns[..|w.ns|][path[i]] == w.ns[path[i]];
    }
    forall i, j | 0 <= i < j < |path'| && j == i + 1
      ensures w'.ns[path'[j]].sibs == [path'[i]] && path'[i] < path'[j] && Linked(w'.ns, path'[j], path'[i])
    {
    }
  }

  /** On a single stack the fast path does what the tables do to it. */
  lemma {:induction false} HaltsOnOnlyStack(ctx: Context, w: Work, path: seq<nat>, n: nat)
    requires AtRest(ctx, w) && OnlyStack(w, path) && KeepsAll(ctx) && DetHalts(ctx, w, n)
    ensures Halts(ctx.pt, ctx.token, StatesOf(w.ns, path), n)
    decreases n
  {
    if Next(ctx.pt, ctx.token, StatesOf(w.ns, path)).Some? {
      var p := OnlyCanReduce(ctx, w, path);
      DetReduceShape(ctx, w, p);
      assert DetKept(ctx, w, p);
      var path' := OnlyStackAfter(ctx, w, path, p);
      HaltsOnOnlyStack(ctx, DetReduce(ctx, w, p), path', n - 1);
    }
  }

  // ---------------------------------------------------------------- a parser with a given stack

  function ChainNodes(st: seq<nat>): Pool {
    seq(|st|, i requires 0 <= i < |st| => StackNode(st[i], 0, if i == 0 then [] else [i - 1]))
  }

  function ChainLinks(n: nat): Links {
    if n < 2 then map[] else ChainLinks(n - 1)[(n - 1, n - 2) := SiblingLink(Leaf(EOF), 0)]
  }

  lemma {:induction false} ChainLinksAre(n: nat)
    ensures forall e :: e in ChainLinks(n) <==> e.1 + 1 == e.0 < n
    ensures forall e :: e in ChainLinks(n) ==> ChainLinks(n)[e].yieldCount == 0
  {
    if n >= 2 {
      ChainLinksAre(n - 1);
    }
  }

  function ChainPath(n: nat): seq<nat> {
    seq(n, i requires 0 <= i < n => i)
  }

  function ChainWork(st: seq<nat>): Work
    requires st != []
  {
    Work(ChainNodes(st), [|st| - 1], ChainLinks(|st|), [], 0)
  }

  lemma ChainLinked(st: seq<nat>, u: nat, v: nat)
    ensures Linked(ChainNodes(st), u, v) <==> v + 1 == u < |st|
  {
  }

  lemma ChainNodeOK(pt: ParseTables, st: seq<nat>, u: nat)
    requires ValidTables(pt) && StackPath(pt, st) && START < pt.numStates
    ensures NodeOK(pt, ChainNodes(st), u)
  {
    if 0 < u < |st| {
      TargetInRange(pt, st[u - 1], st[u]);
    }
  }

  lemma ChainGraph(pt: ParseTables, st: seq<nat>)
    requires ValidTables(pt) && StackPath(pt, st) && START < pt.numStates
    ensures GraphOK(pt, ChainNodes(st))
  {
    var ns := ChainNodes(st);
    forall u: nat ensures NodeOK(pt, ns, u) {
      ChainNodeOK(pt, st, u);
    }
    forall u: nat, v: nat ensures LinkOK(pt, ns, u, v) {
      ChainLinked(st, u, v);
      if Linked(ns, u, v) {
        assert Goes(pt, st[v], st[u]);
      }
    }
  }

  lemma ChainLinksExact(st: seq<nat>)
    ensures LinksExact(ChainNodes(st), ChainLinks(|st|))
  {
    ChainLinksAre(|st|);
    forall u: nat, v: nat ensures Linked(ChainNodes(st), u, v) <==> (u, v) in ChainLinks(|st|) {
      ChainLinked(st, u, v);
    }
  }

  lemma ChainNoneAbove(st: seq<nat>)
    requires st != []
    ensures NoneAbove(ChainNodes(st), [|st| - 1])
  {
    forall u: nat, v: nat | Linked(ChainNodes(st), u, v) ensures v !in [|st| - 1] {
      ChainLinked(st, u, v);
    }
  }

  lemma ChainFrontier(st: seq<nat>)
    requires st != []
    ensures FrontierOK(ChainNodes(st), [|st| - 1], 0)
  {
    ChainNoneAbove(st);
    var ns, tp := ChainNodes(st), [|st| - 1];
    forall u: nat, v: nat ensures FrontierClosed(ns, tp, u, v) {
    }
  }

  lemma ChainAtRest(ctx: Context, st: seq<nat>)
    requires ValidTables(ctx.pt) && StackPath(ctx.pt, st) && START < ctx.pt.numStates && ctx.column == 0
    ensures AtRest(ctx, ChainWork(st))
  {
    ChainGraph(ctx.pt, st);
    ChainLinksExact(st);
    ChainNoneAbove(st);
    ChainFrontier(st);
    ChainLinksAre(|st|);
  }

  lemma ChainIsOnlyStack(st: seq<nat>)
    requires st != []
    ensures OnlyStack(ChainWork(st), ChainPath(|st|)) && StatesOf(ChainWork(st).ns, ChainPath(|st|)) == st
  {
  }

  // ---------------------------------------------------------------- when the fast path hangs

  /** The fast path never stops, and there is nothing to be found: no stack survives the token. */
  ghost predicate Hangs(ctx: Context, w: Work) {
    && AtRest(ctx, w) && (forall n: nat :: !DetHalts(ctx, w, n))
    && AfterToken(ctx.pt, ctx.token, GssStacks(w.ns, w.tp)) == iset{}
  }

  ghost predicate CanHang(pt: ParseTables, keep: (nat, Tree) -> bool, t: nat) {
    exists ctx: Context, w: Work :: ctx.pt == pt && ctx.keep == keep && ctx.token == t && Hangs(ctx, w)
  }

  lemma LoopHangs(pt: ParseTables, keep: (nat, Tree) -> bool, t: nat)
    requires ValidTables(pt) && KeepsEvery(keep) && Loops(pt, t)
    ensures CanHang(pt, keep, t)
  {
    var st := LoopNeverHalts(pt, t);
    StackHangs(Context(pt, t, 0, keep), st);
  }

  lemma StackHangs(ctx: Context, st: seq<nat>)
    requires ValidTables(ctx.pt) && StackPath(ctx.pt, st) && ctx.column == 0 && KeepsAll(ctx)
    requires !HaltsAtLast(ctx.pt, ctx.token, st)
    ensures Hangs(ctx, ChainWork(st))
  {
    assert !Halts(ctx.pt, ctx.token, st, 0);
    HasStates(ctx.pt, ctx.token, st);
    ChainAtRest(ctx, st);
    ChainIsOnlyStack(st);
    OnlyStackHangs(ctx, ChainWork(st), ChainPath(|st|));
  }

  lemma HasStates(pt: ParseTables, t: nat, st: seq<nat>)
    requires ValidTables(pt) && Next(pt, t, st).Some?
    ensures START < pt.numStates
  {
    var p := ActionEntry(pt, Last(st), t).prod;
    assert GotoValid(pt, Last(st[..|st| - |pt.prods[p].rhs|]), pt.prods[p].lhs);
  }

  lemma OnlyStackHangs(ctx: Context, w: Work, path: seq<nat>)
    requires AtRest(ctx, w) && OnlyStack(w, path) && KeepsAll(ctx)
    requires !HaltsAtLast(ctx.pt, ctx.token, StatesOf(w.ns, path))
    ensures Hangs(ctx, w)
  {
    forall n: nat ensures !DetHalts(ctx, w, n) {
      if DetHalts(ctx, w, n) {
        HaltsOnOnlyStack(ctx, w, path, n);
      }
    }
    if AfterToken(ctx.pt, ctx.token, GssStacks(w.ns, w.tp)) != iset{} {
      var n := ViableTokenHalts(ctx, w);
    }
  }

  /** For a user who keeps every value: on some graph the fast path hangs on the token, exactly if the
      tables have a loop under it. */
  lemma HangsExactly(pt: ParseTables, keep: (nat, Tree) -> bool, t: nat)
    requires ValidTables(pt) && KeepsEvery(keep)
    ensures CanHang(pt, keep, t) <==> Loops(pt, t)
  {
    if CanHang(pt, keep, t) {
      var ctx: Context, w: Work :| ctx.pt == pt && ctx.keep == keep && ctx.token == t && Hangs(ctx, w);
      if !Loops(pt, t) {
        var n := NoLoopHalts(ctx, w);
      }
    }
    if Loops(pt, t) {
      LoopHangs(pt, keep, t);
    }
  }
}
