/** The mini-LR fast path: one parser, one action, one way to pop. */
module MiniLr {
  import opened Grammars
  import opened LrMachine
  import opened Gss
  import opened PathQueue
  import opened Worklist
  import opened ExactlyOnce
  import opened Derivations
  import opened Stacks
  import opened YieldThenMerge
  import opened DeterminDepth

  /** Between reductions of the fast path, and whenever the full algorithm starts on a token. */
  ghost predicate AtRest(ctx: Context, w: Work) {
    Shape(ctx, w) && NoneAbove(w.ns, w.tp) && NothingYielded(w) && w.queue == []
  }

  /** The nodes popped by a reduction that is within the depth of the only parser. */
  function PoppedChain(ctx: Context, w: Work, p: nat): seq<nat>
    requires |w.tp| == 1 && w.tp[0] < |w.ns| && SibsInPool(w.ns) && p < |ctx.pt.prods|
  {
    FirstChain(w.ns, w.tp[0], |ctx.pt.prods[p].rhs|)
  }

  ghost predicate DetReady(ctx: Context, w: Work, p: nat) {
    && |w.tp| == 1 && w.tp[0] < |w.ns| && SibsInPool(w.ns) && p < |ctx.pt.prods|
    && var chain := PoppedChain(ctx, w, p);
       chain != [] && chain[0] < |w.ns| && (w.ns[chain[0]].state, LhsOf(ctx.pt, p)) in ctx.pt.goto
  }

  /** Replace the popped part of the only stack by the goto state. */
  function DetReduce(ctx: Context, w: Work, p: nat): Work
    requires DetReady(ctx, w, p)
  {
    var chain := PoppedChain(ctx, w, p);
    Push(ctx, w, chain[0], ctx.pt.goto[(w.ns[chain[0]].state, LhsOf(ctx.pt, p))], Node(p, ValuesOf(w.links, chain)))
      .(tp := [|w.ns|])
  }

  ghost predicate CanDetReduce(ctx: Context, w: Work, p: nat) {
    && |w.tp| == 1 && w.tp[0] < |w.ns| && p < |ctx.pt.prods|
    && ActionEntry(ctx.pt, w.ns[w.tp[0]].state, ctx.token) == Reduce(p)
    && |ctx.pt.prods[p].rhs| <= Depth(w.ns, w.tp[0])
  }

  /** The popped chain is the only path the full algorithm would find for this reduction. */
  lemma PoppedIsOnlyPath(ctx: Context, w: Work, p: nat)
    requires Shape(ctx, w) && CanDetReduce(ctx, w, p)
    ensures var chain := PoppedChain(ctx, w, p);
            && chain != [] && chain[0] < |w.ns|
            && Enabled(ctx.pt, ctx.token, w.ns, w.tp, Path(p, w.ns[chain[0]].column, chain))
            && (w.ns[chain[0]].state, LhsOf(ctx.pt, p)) in ctx.pt.goto
            && forall path :: Enabled(ctx.pt, ctx.token, w.ns, w.tp, path) ==> path.prod == p && path.chain == chain
  {
    var x, k := w.tp[0], |ctx.pt.prods[p].rhs|;
    var chain := PoppedChain(ctx, w, p);
    FirstChainIsPath(ctx.pt, w.ns, x, k);
    PathStates(ctx.pt, w.ns, chain);
    var st := StatesOf(w.ns, chain);
    assert CanReduce(ActionEntry(ctx.pt, Last(st), ctx.token), p);
    assert NodeOK(ctx.pt, w.ns, 0);
    assert |chain| == k + 1;
    EnabledSpells(ctx, w, Path(p, w.ns[chain[0]].column, chain));
    forall path | Enabled(ctx.pt, ctx.token, w.ns, w.tp, path) ensures path.prod == p && path.chain == chain {
      assert Last(path.chain) == x;
      ShallowPathIsUnique(ctx.pt, w.ns, x, k, path.chain);
    }
  }

  lemma DetReducePushes(ctx: Context, w: Work, p: nat)
    requires Shape(ctx, w) && CanDetReduce(ctx, w, p)
    ensures DetReady(ctx, w, p)
    ensures Shape(ctx, DetReduce(ctx, w, p))
    ensures Grown(w.ns, DetReduce(ctx, w, p).ns, |w.ns|, PoppedChain(ctx, w, p)[0])
  {
    PoppedIsOnlyPath(ctx, w, p);
    var chain := PoppedChain(ctx, w, p);
    var w0 := w.(tp := []);
    assert Shape(ctx, w0) by {
      forall u: nat, v: nat ensures FrontierClosed(w.ns, [], u, v) {
      }
    }
    PushShape(ctx, w0, chain[0], LhsOf(ctx.pt, p), Node(p, ValuesOf(w.links, chain)));
  }

  lemma DetReduceShape(ctx: Context, w: Work, p: nat)
    requires AtRest(ctx, w) && CanDetReduce(ctx, w, p)
    ensures DetReady(ctx, w, p)
    ensures AtRest(ctx, DetReduce(ctx, w, p))
    ensures Grown(w.ns, DetReduce(ctx, w, p).ns, |w.ns|, PoppedChain(ctx, w, p)[0])
  {
    DetReducePushes(ctx, w, p);
    var w' := DetReduce(ctx, w, p);
    forall u: nat, v: nat | Linked(w'.ns, u, v) ensures v !in w'.tp {
      assert LinkOK(ctx.pt, w.ns, u, v);
    }
    forall e | e in w'.links && e.0 in w'.tp ensures w'.links[e].yieldCount == 0 {
      assert Linked(w.ns, e.0, e.1) <==> e in w.links;
    }
  }

  lemma DetReduceDerives(g: Grammar, input: seq<nat>, ctx: Context, w: Work, p: nat)
    requires AtRest(ctx, w) && CanDetReduce(ctx, w, p) && ctx.pt.prods == g.prods && ctx.column <= |input|
    requires LinksDerive(g, input, ctx.pt, w.ns, w.links)
    ensures DetReady(ctx, w, p) && AtRest(ctx, DetReduce(ctx, w, p))
    ensures LinksDerive(g, input, ctx.pt, DetReduce(ctx, w, p).ns, DetReduce(ctx, w, p).links)
  {
    DetReduceShape(ctx, w, p);
    PoppedIsOnlyPath(ctx, w, p);
    var chain := PoppedChain(ctx, w, p);
    ReductionDerives(g, input, ctx, w, Path(p, w.ns[chain[0]].column, chain));
    var w' := DetReduce(ctx, w, p);
    assert GotoValid(ctx.pt, w.ns[chain[0]].state, LhsOf(ctx.pt, p));
    forall r: nat, l: nat ensures LinkDerives(g, input, ctx.pt, w'.ns, w'.links, r, l) {
      assert LinkDerives(g, input, ctx.pt, w.ns, w.links, r, l);
      assert (r, l) in w.links ==> Linked(w.ns, r, l) && LinkOK(ctx.pt, w.ns, r, l);
      assert (|w.ns|, chain[0]) !in w.links by {
        assert !Linked(w.ns, |w.ns|, chain[0]);
      }
    }
  }

  /** The stacks after a fast reduction are the one-step reductions of the stacks before. */
  lemma DetReduceStacks(ctx: Context, w: Work, p: nat, st: seq<nat>, st': seq<nat>)
    requires AtRest(ctx, w) && CanDetReduce(ctx, w, p) && DetReady(ctx, w, p)
    requires st in GssStacks(w.ns, w.tp) && ReduceStep(ctx.pt, ctx.token, st, st')
    ensures st' in GssStacks(DetReduce(ctx, w, p).ns, DetReduce(ctx, w, p).tp)
  {
    var path: seq<nat> :| Spells(w.ns, w.tp, path, st);
    var q: nat :| ReducesBy(ctx.pt, ctx.token, st, st', q);
    OnlyReduction(ctx, w, p, path, st, st', q);
    DetReduceShape(ctx, w, p);
    SpellsOnNew(ctx, w, DetReduce(ctx, w, p), PoppedChain(ctx, w, p)[0], path, st, st', q);
  }

  lemma OnlyReduction(ctx: Context, w: Work, p: nat, path: seq<nat>, st: seq<nat>, st': seq<nat>, q: nat)
    requires Shape(ctx, w) && CanDetReduce(ctx, w, p)
    requires Spells(w.ns, w.tp, path, st) && ReducesBy(ctx.pt, ctx.token, st, st', q)
    ensures q == p && path[|path| - 1 - |ctx.pt.prods[p].rhs|..] == PoppedChain(ctx, w, p)
    ensures var l := PoppedChain(ctx, w, p)[0];
            l < |w.ns| && (w.ns[l].state, LhsOf(ctx.pt, p)) in ctx.pt.goto
            && Last(st') == ctx.pt.goto[(w.ns[l].state, LhsOf(ctx.pt, p))]
  {
    var k := |path| - 1 - |ctx.pt.prods[q].rhs|;
    EnabledOnStack(ctx, w, path, st, st', q);
    PoppedAlone(ctx, w, p, Path(q, w.ns[path[k]].column, path[k..]));
  }

  lemma PoppedAlone(ctx: Context, w: Work, p: nat, path: Path)
    requires Shape(ctx, w) && CanDetReduce(ctx, w, p) && Enabled(ctx.pt, ctx.token, w.ns, w.tp, path)
    ensures path.prod == p && path.chain == PoppedChain(ctx, w, p)
  {
    PoppedIsOnlyPath(ctx, w, p);
  }

  /** What reduces on a stack is enabled on its path. */
  lemma EnabledOnStack(ctx: Context, w: Work, path: seq<nat>, st: seq<nat>, st': seq<nat>, q: nat)
    requires Spells(w.ns, w.tp, path, st) && ReducesBy(ctx.pt, ctx.token, st, st', q)
    ensures var k := |path| - 1 - |ctx.pt.prods[q].rhs|;
            k >= 0 && path[k] < |w.ns|
            && Enabled(ctx.pt, ctx.token, w.ns, w.tp, Path(q, w.ns[path[k]].column, path[k..]))
            && path[k..][0] == path[k] && (w.ns[path[k]].state, LhsOf(ctx.pt, q)) in ctx.pt.goto
            && Last(st') == ctx.pt.goto[(w.ns[path[k]].state, LhsOf(ctx.pt, q))]
  {
    var k := |path| - 1 - |ctx.pt.prods[q].rhs|;
    assert Last(st) == w.ns[Last(path)].state && st[k] == w.ns[path[k]].state;
    EnabledOnPath(ctx, w, path, k, Path(q, w.ns[path[k]].column, path[k..]));
  }

  lemma SpellsOnNew(ctx: Context, w: Work, w': Work, l: nat, path: seq<nat>, st: seq<nat>, st': seq<nat>, q: nat)
    requires Grown(w.ns, w'.ns, |w.ns|, l) && w'.tp == [|w.ns|]
    requires Spells(w.ns, w.tp, path, st) && ReducesBy(ctx.pt, ctx.token, st, st', q)
    requires path[|path| - 1 - |ctx.pt.prods[q].rhs|] == l && w'.ns[|w.ns|].state == Last(st')
    ensures st' in GssStacks(w'.ns, w'.tp)
  {
    var left := path[..|path| - |ctx.pt.prods[q].rhs|];
    SubPath(w.ns, path, 0, |left|);
    assert path[0..|left|] == left;
    PathStays(w.ns, w'.ns, |w.ns|, l, left);
    PushOnPath(w', left, |w.ns|);
    assert StatesOf(w'.ns, left + [|w.ns|]) == st[..|left|] + [Last(st')];
    assert Spells(w'.ns, w'.tp, left + [|w.ns|], st');
  }

  lemma DetReduceBack(ctx: Context, w: Work, p: nat, st': seq<nat>) returns (st: seq<nat>)
    requires AtRest(ctx, w) && CanDetReduce(ctx, w, p) && DetReady(ctx, w, p)
    requires st' in GssStacks(DetReduce(ctx, w, p).ns, DetReduce(ctx, w, p).tp)
    ensures st in GssStacks(w.ns, w.tp) && Reduces(ctx.pt, ctx.token, st, st')
  {
    DetReduceShape(ctx, w, p);
    PoppedIsOnlyPath(ctx, w, p);
    var w', chain := DetReduce(ctx, w, p), PoppedChain(ctx, w, p);
    var path: seq<nat> :| Spells(w'.ns, w'.tp, path, st');
    var left := path[..|path| - 1];
    PathToNew(ctx, w, w', chain[0], path);
    st := BackByReduction(ctx, w, p, chain, left, st');
  }

  lemma BackByReduction(ctx: Context, w: Work, p: nat, chain: seq<nat>, left: seq<nat>, st': seq<nat>)
      returns (st: seq<nat>)
    requires Shape(ctx, w) && chain != [] && chain[0] < |w.ns|
    requires Enabled(ctx.pt, ctx.token, w.ns, w.tp, Path(p, w.ns[chain[0]].column, chain))
    requires (w.ns[chain[0]].state, LhsOf(ctx.pt, p)) in ctx.pt.goto
    requires IsPath(w.ns, left) && left[0] == 0 && Last(left) == chain[0]
    requires st' == StatesOf(w.ns, left) + [ctx.pt.goto[(w.ns[chain[0]].state, LhsOf(ctx.pt, p))]]
    ensures st in GssStacks(w.ns, w.tp) && Reduces(ctx.pt, ctx.token, st, st')
  {
    var item := Path(p, w.ns[chain[0]].column, chain);
    EnabledSpells(ctx, w, item);
    ReduceAtTop(ctx, w, item, left, Last(st'));
    st := StatesOf(w.ns, left + chain[1..]);
    assert Spells(w.ns, w.tp, left + chain[1..], st);
  }

  lemma PathToNew(ctx: Context, w: Work, w': Work, l: nat, path: seq<nat>)
    requires GraphOK(ctx.pt, w.ns) && Grown(w.ns, w'.ns, |w.ns|, l)
    requires IsPath(w'.ns, path) && path[0] == 0 && Last(path) == |w.ns|
    ensures |path| > 1 && path[|path| - 2] == l && IsPath(w.ns, path[..|path| - 1])
    ensures StatesOf(w'.ns, path) == StatesOf(w.ns, path[..|path| - 1]) + [w'.ns[|w.ns|].state]
  {
    var k := |path| - 1;
    assert Linked(w'.ns, path[k], path[k - 1]);
    assert LinkOK(ctx.pt, w.ns, path[k], path[k - 1]);
    SubPath(w'.ns, path, 0, k);
    assert path[0..k] == path[..k];
    OldEnd(ctx.pt, w.ns, w'.ns, l, path[..k]);
  }

  /** With one parser, every stack has its state on top. */
  lemma TopOfAll(w: Work, st: seq<nat>)
    requires |w.tp| == 1 && w.tp[0] < |w.ns| && st in GssStacks(w.ns, w.tp)
    ensures st != [] && Last(st) == w.ns[w.tp[0]].state
  {
    var path: seq<nat> :| Spells(w.ns, w.tp, path, st);
  }

  /** A fast reduction does not change what the token leads to. */
  lemma DetReduceRefines(ctx: Context, w: Work, p: nat)
    requires AtRest(ctx, w) && CanDetReduce(ctx, w, p) && DetReady(ctx, w, p)
    ensures AfterToken(ctx.pt, ctx.token, GssStacks(DetReduce(ctx, w, p).ns, DetReduce(ctx, w, p).tp))
            == AfterToken(ctx.pt, ctx.token, GssStacks(w.ns, w.tp))
  {
    var w' := DetReduce(ctx, w, p);
    var s, s' := GssStacks(w.ns, w.tp), GssStacks(w'.ns, w'.tp);
    forall st | st in Closure(ctx.pt, ctx.token, s') ensures st in Closure(ctx.pt, ctx.token, s) {
      var b' :| b' in s' && Reduces(ctx.pt, ctx.token, b', st);
      var b := DetReduceBack(ctx, w, p, b');
      ReducesTrans(ctx.pt, ctx.token, b, b', st);
    }
    forall st | st in Closure(ctx.pt, ctx.token, s) && st != []
      && ShiftDest(ActionEntry(ctx.pt, Last(st), ctx.token)).Some?
      ensures st in Closure(ctx.pt, ctx.token, s')
    {
      var b :| b in s && Reduces(ctx.pt, ctx.token, b, st);
      TopOfAll(w, b);
      var mid := ReducesSplit(ctx.pt, ctx.token, b, st);
      DetReduceStacks(ctx, w, p, b, mid);
    }
  }

  /** A lone parser whose action is an error takes the token nowhere. */
  lemma DetErrorRefines(ctx: Context, w: Work)
    requires |w.tp| == 1 && w.tp[0] < |w.ns| && ActionEntry(ctx.pt, w.ns[w.tp[0]].state, ctx.token) == Error
    ensures AfterToken(ctx.pt, ctx.token, GssStacks(w.ns, w.tp)) == iset{}
  {
    forall st | st in Closure(ctx.pt, ctx.token, GssStacks(w.ns, w.tp))
      ensures st != [] && ActionEntry(ctx.pt, Last(st), ctx.token) == Error
    {
      NoReductionsFirst(ctx, w, st);
      TopOfAll(w, st);
    }
  }

  /** Without a reduce action on top, the closure adds nothing. */
  lemma NoReductionsFirst(ctx: Context, w: Work, st: seq<nat>)
    requires |w.tp| == 1 && w.tp[0] < |w.ns| && st in Closure(ctx.pt, ctx.token, GssStacks(w.ns, w.tp))
    requires forall p: nat :: !CanReduce(ActionEntry(ctx.pt, w.ns[w.tp[0]].state, ctx.token), p)
    ensures st in GssStacks(w.ns, w.tp)
  {
    var b :| b in GssStacks(w.ns, w.tp) && Reduces(ctx.pt, ctx.token, b, st);
    TopOfAll(w, b);
    if b != st {
      var mid := ReducesSplit(ctx.pt, ctx.token, b, st);
      assert false;
    }
  }

  /** A lone parser whose only action is a shift makes no reduction first. */
  lemma DetShiftRefines(ctx: Context, w: Work)
    requires |w.tp| == 1 && w.tp[0] < |w.ns| && ActionEntry(ctx.pt, w.ns[w.tp[0]].state, ctx.token).Shift?
    ensures Closure(ctx.pt, ctx.token, GssStacks(w.ns, w.tp)) == GssStacks(w.ns, w.tp)
  {
    forall st | st in Closure(ctx.pt, ctx.token, GssStacks(w.ns, w.tp)) ensures st in GssStacks(w.ns, w.tp) {
      NoReductionsFirst(ctx, w, st);
    }
    forall st | st in GssStacks(w.ns, w.tp) ensures st in Closure(ctx.pt, ctx.token, GssStacks(w.ns, w.tp)) {
      ReducesRefl(ctx.pt, ctx.token, st);
    }
  }

  // ---------------------------------------------------------------- does the fast path halt?

  /** The fast path stops within `n` reductions; it stops at once when a reduction is cancelled. */
  ghost predicate DetHalts(ctx: Context, w: Work, n: nat)
    requires AtRest(ctx, w)
    decreases n
  {
    forall p: nat :: CanDetReduce(ctx, w, p) && DetKept(ctx, w, p) ==>
      n > 0 && (DetReduceShape(ctx, w, p); DetHalts(ctx, DetReduce(ctx, w, p), n - 1))
  }

  ghost predicate DetKept(ctx: Context, w: Work, p: nat)
    requires AtRest(ctx, w) && CanDetReduce(ctx, w, p)
  {
    ctx.keep(LhsOf(ctx.pt, p), Node(p, ValuesOf(w.links, PoppedChain(ctx, w, p))))
  }

  /** What the fast path leaves to the full algorithm: several parsers, several actions, a path that is not the
      only one, or an error that only the full algorithm looks for. */
  ghost predicate NeedsFullAlgorithm(ctx: Context, w: Work, errorBits: bool) {
    |w.tp| == 1 && w.tp[0] < |w.ns| ==>
      match ActionEntry(ctx.pt, w.ns[w.tp[0]].state, ctx.token)
      case Shift(_) => false
      case Reduce(p) => p < |ctx.pt.prods| ==> |ctx.pt.prods[p].rhs| > Depth(w.ns, w.tp[0])
      case Error => !errorBits
      case Ambig(_) => true
  }

  /** The fast path ends the parse only at an error, or at a reduction that the user cancels. */
  ghost predicate DetFails(ctx: Context, w: Work, errorBits: bool) {
    && AtRest(ctx, w) && |w.tp| == 1 && w.tp[0] < |w.ns|
    && ((errorBits && ActionEntry(ctx.pt, w.ns[w.tp[0]].state, ctx.token) == Error)
        || exists p :: CanDetReduce(ctx, w, p) && !DetKept(ctx, w, p))
  }

  /** If the machine can get past the token, the fast path stops: it follows the machine's run. */
  lemma {:induction false} RunHalts(ctx: Context, w: Work, run: seq<seq<nat>>)
    requires AtRest(ctx, w) && ReduceRun(ctx.pt, ctx.token, run) && run[0] in GssStacks(w.ns, w.tp)
    requires Last(run) != [] && ShiftDest(ActionEntry(ctx.pt, Last(Last(run)), ctx.token)).Some?
    ensures DetHalts(ctx, w, |run|)
    decreases |run|
  {
    forall p: nat | CanDetReduce(ctx, w, p) && DetKept(ctx, w, p)
      ensures |run| > 1 && (DetReduceShape(ctx, w, p); DetHalts(ctx, DetReduce(ctx, w, p), |run| - 1))
    {
      DetReduceShape(ctx, w, p);
      FollowsRun(ctx, w, run, p);
      RunHalts(ctx, DetReduce(ctx, w, p), run[1..]);
    }
  }

  lemma FollowsRun(ctx: Context, w: Work, run: seq<seq<nat>>, p: nat)
    requires AtRest(ctx, w) && ReduceRun(ctx.pt, ctx.token, run) && run[0] in GssStacks(w.ns, w.tp)
    requires Last(run) != [] && ShiftDest(ActionEntry(ctx.pt, Last(Last(run)), ctx.token)).Some?
    requires CanDetReduce(ctx, w, p) && DetReady(ctx, w, p)
    ensures |run| > 1 && ReduceRun(ctx.pt, ctx.token, run[1..])
    ensures run[1] in GssStacks(DetReduce(ctx, w, p).ns, DetReduce(ctx, w, p).tp)
  {
    TopOfAll(w, run[0]);
    assert |run| > 1;
    DetReduceStacks(ctx, w, p, run[0], run[1]);
  }

  lemma ViableTokenHalts(ctx: Context, w: Work) returns (n: nat)
    requires AtRest(ctx, w) && AfterToken(ctx.pt, ctx.token, GssStacks(w.ns, w.tp)) != iset{}
    ensures DetHalts(ctx, w, n)
  {
    var st' :| st' in AfterToken(ctx.pt, ctx.token, GssStacks(w.ns, w.tp));
    var st :| st in Closure(ctx.pt, ctx.token, GssStacks(w.ns, w.tp)) && st != []
              && ShiftDest(ActionEntry(ctx.pt, Last(st), ctx.token)).Some?;
    var b :| b in GssStacks(w.ns, w.tp) && Reduces(ctx.pt, ctx.token, b, st);
    var run :| ReduceRun(ctx.pt, ctx.token, run) && run[0] == b && Last(run) == st;
    RunHalts(ctx, w, run);
    n := |run|;
  }
}
