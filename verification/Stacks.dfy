/** The graph-structured stack holds exactly the stacks of the nondeterministic LR machine. */
module Stacks {
  import opened Grammars
  import opened LrMachine
  import opened Gss
  import opened PathQueue
  import opened Worklist
  import opened ExactlyOnce

  /** A link onto a frontier node is a reduction that works on top of any stack ending there. */
  ghost predicate AboveSound(ctx: Context, w: Work, u: nat, v: nat) {
    Linked(w.ns, u, v) && v in w.tp && u < |w.ns| && v < |w.ns| ==>
      Reduces(ctx.pt, ctx.token, [w.ns[v].state], [w.ns[v].state, w.ns[u].state])
  }

  /** A link onto an older node extends every stack that ends in the older node to a reachable one. */
  ghost predicate CrossSound(ctx: Context, base: iset<seq<nat>>, w: Work, path: seq<nat>, u: nat) {
    IsPath(w.ns, path) && path[0] == 0 && Last(path) !in w.tp && u in w.tp && Linked(w.ns, u, Last(path)) ==>
      StatesOf(w.ns, path) + [w.ns[u].state] in Closure(ctx.pt, ctx.token, base)
  }

  ghost predicate StackSound(ctx: Context, base: iset<seq<nat>>, w: Work) {
    && (forall u: nat, v: nat :: AboveSound(ctx, w, u, v))
    && (forall path: seq<nat>, u: nat :: CrossSound(ctx, base, w, path, u))
    && (0 in w.tp ==> [START] in Closure(ctx.pt, ctx.token, base))
  }

  ghost predicate NoneAbove(ns: Pool, tp: seq<nat>) {
    forall u: nat, v: nat :: Linked(ns, u, v) ==> v !in tp
  }

  lemma ClosureHas(pt: ParseTables, t: nat, base: iset<seq<nat>>, b: seq<nat>, st: seq<nat>)
    requires b in base && Reduces(pt, t, b, st)
    ensures st in Closure(pt, t, base)
  {
  }

  lemma ClosureStep(pt: ParseTables, t: nat, base: iset<seq<nat>>, st: seq<nat>, st': seq<nat>)
    requires st in Closure(pt, t, base) && Reduces(pt, t, st, st')
    ensures st' in Closure(pt, t, base)
  {
    var b :| b in base && Reduces(pt, t, b, st);
    ReducesTrans(pt, t, b, st, st');
  }

  /** At the start of a token nothing is above the frontier, and its stacks are the base. */
  lemma SoundAtStart(ctx: Context, w: Work)
    requires Shape(ctx, w) && NoneAbove(w.ns, w.tp)
    ensures StackSound(ctx, GssStacks(w.ns, w.tp), w)
  {
    var base := GssStacks(w.ns, w.tp);
    forall path: seq<nat>, u: nat ensures CrossSound(ctx, base, w, path, u) {
      if IsPath(w.ns, path) && path[0] == 0 && Last(path) !in w.tp && u in w.tp && Linked(w.ns, u, Last(path)) {
        var long := path + [u];
        JoinPaths(w.ns, path, [Last(path), u]);
        assert [Last(path), u][1..] == [u];
        var st := StatesOf(w.ns, path) + [w.ns[u].state];
        assert Spells(w.ns, w.tp, long, st);
        ReducesRefl(ctx.pt, ctx.token, st);
        ClosureHas(ctx.pt, ctx.token, base, st, st);
      }
    }
    if 0 in w.tp {
      assert NodeOK(ctx.pt, w.ns, 0);
      assert Spells(w.ns, w.tp, [0], [START]);
      ReducesRefl(ctx.pt, ctx.token, [START]);
      ClosureHas(ctx.pt, ctx.token, base, [START], [START]);
    }
  }

  /** Above a frontier node, a path spells what the machine can push by reductions alone. */
  lemma {:induction false} ClimbFromFrontier(ctx: Context, base: iset<seq<nat>>, w: Work, path: seq<nat>)
    requires Shape(ctx, w) && StackSound(ctx, base, w) && IsPath(w.ns, path) && path[0] in w.tp
    ensures Reduces(ctx.pt, ctx.token, [w.ns[path[0]].state], StatesOf(w.ns, path)) && Last(path) in w.tp
    decreases |path|
  {
    var k := |path| - 1;
    var st := StatesOf(w.ns, path);
    if k == 0 {
      assert st == [w.ns[path[0]].state];
      ReducesRefl(ctx.pt, ctx.token, st);
    } else {
      SubPath(w.ns, path, 0, k);
      assert path[0..k] == path[..k];
      ClimbFromFrontier(ctx, base, w, path[..k]);
      var u, v := path[k], path[k - 1];
      assert FrontierClosed(w.ns, w.tp, u, v) && AboveSound(ctx, w, u, v);
      var below := StatesOf(w.ns, path[..k]);
      ReducesFrame(ctx.pt, ctx.token, below[..k - 1], [w.ns[v].state], [w.ns[v].state, w.ns[u].state]);
      assert below[..k - 1] + [w.ns[v].state] == below;
      assert below[..k - 1] + [w.ns[v].state, w.ns[u].state] == st;
      ReducesTrans(ctx.pt, ctx.token, [w.ns[path[0]].state], below, st);
    }
  }

  /** Every path from the bottom to the frontier spells a stack the machine can reach. */
  lemma {:induction false} PathsAreReachable(ctx: Context, base: iset<seq<nat>>, w: Work, path: seq<nat>)
    requires Shape(ctx, w) && StackSound(ctx, base, w)
    requires IsPath(w.ns, path) && path[0] == 0 && Last(path) in w.tp
    ensures StatesOf(w.ns, path) in Closure(ctx.pt, ctx.token, base)
    decreases |path|
  {
    var k := |path| - 1;
    var st := StatesOf(w.ns, path);
    if k == 0 {
      assert NodeOK(ctx.pt, w.ns, 0);
      assert st == [START];
    } else {
      SubPath(w.ns, path, 0, k);
      var left := path[..k];
      assert path[0..k] == left;
      assert Linked(w.ns, path[k], path[k - 1]);
      assert st == StatesOf(w.ns, left) + [w.ns[path[k]].state];
      if path[k - 1] in w.tp {
        PathsAreReachable(ctx, base, w, left);
        ClimbFromFrontier(ctx, base, w, path[k - 1..]);
        ReducesFrame(ctx.pt, ctx.token, StatesOf(w.ns, left)[..k - 1],
          [w.ns[path[k - 1]].state], StatesOf(w.ns, path[k - 1..]));
        assert StatesOf(w.ns, left)[..k - 1] + [w.ns[path[k - 1]].state] == StatesOf(w.ns, left);
        assert StatesOf(w.ns, left)[..k - 1] + StatesOf(w.ns, path[k - 1..]) == st;
        ClosureStep(ctx.pt, ctx.token, base, StatesOf(w.ns, left), st);
      } else {
        assert CrossSound(ctx, base, w, left, path[k]);
      }
    }
  }

  /** A reduction the machine makes at the top of a path. */
  lemma ReduceAtTop(ctx: Context, w: Work, p: Path, path: seq<nat>, s: nat)
    requires Shape(ctx, w) && Enabled(ctx.pt, ctx.token, w.ns, w.tp, p) && IsPath(w.ns, path)
    requires Last(path) == p.chain[0] && CanProcess(ctx, w, p)
    requires s == ctx.pt.goto[(w.ns[p.chain[0]].state, LhsOf(ctx.pt, p.prod))]
    ensures IsPath(w.ns, path + p.chain[1..])
    ensures Reduces(ctx.pt, ctx.token, StatesOf(w.ns, path + p.chain[1..]), StatesOf(w.ns, path) + [s])
  {
    JoinPaths(w.ns, path, p.chain);
    var st := StatesOf(w.ns, path + p.chain[1..]);
    assert Last(st) == w.ns[Last(p.chain)].state;
    assert st[..|st| - |ctx.pt.prods[p.prod].rhs|] == StatesOf(w.ns, path);
    assert ReducesBy(ctx.pt, ctx.token, st, StatesOf(w.ns, path) + [s], p.prod);
    ReducesOne(ctx.pt, ctx.token, st, StatesOf(w.ns, path) + [s], p.prod);
  }

  lemma GrewAboveSound(ctx: Context, base: iset<seq<nat>>, w: Work, w': Work, p: Path, r: nat)
    requires Shape(ctx, w) && StackSound(ctx, base, w)
    requires Enabled(ctx.pt, ctx.token, w.ns, w.tp, p) && Grew(ctx, w, w', p, r) && Shape(ctx, w')
    ensures forall u: nat, v: nat :: AboveSound(ctx, w', u, v)
  {
    forall u: nat, v: nat ensures AboveSound(ctx, w', u, v) {
      if Linked(w'.ns, u, v) && v in w'.tp {
        if u == r && v == p.chain[0] {
          NewAboveSound(ctx, base, w, p, w'.ns[r].state);
        } else {
          assert LinkOK(ctx.pt, w.ns, u, v) && AboveSound(ctx, w, u, v);
        }
      }
    }
  }

  lemma NewAboveSound(ctx: Context, base: iset<seq<nat>>, w: Work, p: Path, s: nat)
    requires Shape(ctx, w) && StackSound(ctx, base, w) && Enabled(ctx.pt, ctx.token, w.ns, w.tp, p)
    requires CanProcess(ctx, w, p) && s == ctx.pt.goto[(w.ns[p.chain[0]].state, LhsOf(ctx.pt, p.prod))]
    requires p.chain[0] in w.tp
    ensures Reduces(ctx.pt, ctx.token, [w.ns[p.chain[0]].state], [w.ns[p.chain[0]].state, s])
  {
    var l := p.chain[0];
    ClimbFromFrontier(ctx, base, w, p.chain);
    ReduceAtTop(ctx, w, p, [l], s);
    assert [l] + p.chain[1..] == p.chain && StatesOf(w.ns, [l]) == [w.ns[l].state];
    assert [w.ns[l].state] + [s] == [w.ns[l].state, s];
    ReducesTrans(ctx.pt, ctx.token, [w.ns[l].state], StatesOf(w.ns, p.chain), [w.ns[l].state, s]);
  }

  /** A path from the bottom to below the frontier does not use the new link. */
  lemma PathBelowIsOld(ctx: Context, w: Work, w': Work, p: Path, r: nat, path: seq<nat>)
    requires GraphOK(ctx.pt, w.ns) && Shape(ctx, w') && Grew(ctx, w, w', p, r)
    requires IsPath(w'.ns, path) && path[0] == 0 && Last(path) !in w'.tp && 0 < |w.ns|
    ensures IsPath(w.ns, path) && StatesOf(w'.ns, path) == StatesOf(w.ns, path)
  {
    forall i, j | 0 <= i < j < |path| && j == i + 1 ensures !(path[j] == r && path[i] == p.chain[0]) {
      LeftOfOld(w'.ns, w'.tp, ctx.column, path, j, |path| - 1);
    }
    PathIsOld(ctx.pt, w.ns, w'.ns, r, p.chain[0], path);
    assert StatesOf(w'.ns, path) == StatesOf(w.ns, path);
  }

  /** The stack that the new link makes is one the machine reaches by the reduction. */
  lemma NewCrossSound(ctx: Context, base: iset<seq<nat>>, w: Work, p: Path, path: seq<nat>, s: nat)
    requires Shape(ctx, w) && StackSound(ctx, base, w) && Enabled(ctx.pt, ctx.token, w.ns, w.tp, p)
    requires CanProcess(ctx, w, p)
    requires IsPath(w.ns, path) && path[0] == 0 && Last(path) == p.chain[0]
    requires s == ctx.pt.goto[(w.ns[p.chain[0]].state, LhsOf(ctx.pt, p.prod))]
    ensures StatesOf(w.ns, path) + [s] in Closure(ctx.pt, ctx.token, base)
  {
    ReduceAtTop(ctx, w, p, path, s);
    var long := path + p.chain[1..];
    assert Last(long) == Last(p.chain);
    PathsAreReachable(ctx, base, w, long);
    ClosureStep(ctx.pt, ctx.token, base, StatesOf(w.ns, long), StatesOf(w.ns, path) + [s]);
  }

  lemma GrewCrossSound(ctx: Context, base: iset<seq<nat>>, w: Work, w': Work, p: Path, r: nat, path: seq<nat>, u: nat)
    requires Shape(ctx, w) && StackSound(ctx, base, w)
    requires Enabled(ctx.pt, ctx.token, w.ns, w.tp, p) && Grew(ctx, w, w', p, r) && Shape(ctx, w')
    ensures CrossSound(ctx, base, w', path, u)
  {
    if IsPath(w'.ns, path) && path[0] == 0 && Last(path) !in w'.tp && u in w'.tp && Linked(w'.ns, u, Last(path)) {
      PathBelowIsOld(ctx, w, w', p, r, path);
      if u == r && Last(path) == p.chain[0] {
        NewCrossSound(ctx, base, w, p, path, w'.ns[r].state);
      } else {
        assert Linked(w.ns, u, Last(path));
        assert CrossSound(ctx, base, w, path, u);
      }
    }
  }

  /** A step of the worklist adds only stacks that the machine can reach. */
  lemma StepSound(ctx: Context, base: iset<seq<nat>>, w: Work, done: iset<Path>)
    requires Shape(ctx, w) && Once(ctx, w, done) && w.queue != [] && StackSound(ctx, base, w)
    ensures Ready(ctx.pt, w) && CanProcess(ctx, w, w.queue[0]) && StackSound(ctx, base, Step(ctx, w))
  {
    var grew, r := StepOnce(ctx, w, done);
    var w' := Step(ctx, w);
    if grew {
      var p := w.queue[0];
      GrewAboveSound(ctx, base, w, w', p, r);
      forall path: seq<nat>, u: nat ensures CrossSound(ctx, base, w', path, u) {
        GrewCrossSound(ctx, base, w, w', p, r, path, u);
      }
    } else {
      forall u: nat, v: nat ensures AboveSound(ctx, w', u, v) {
        assert AboveSound(ctx, w, u, v);
      }
      forall path: seq<nat>, u: nat ensures CrossSound(ctx, base, w', path, u) {
        assert CrossSound(ctx, base, w, path, u);
      }
    }
  }

  // ---------------------------------------------------------------- completeness

  /** The user cancels no reduction. */
  ghost predicate KeepsEvery(keep: (nat, Tree) -> bool) {
    forall b: nat, v: Tree :: keep(b, v)
  }

  ghost predicate KeepsAll(ctx: Context) {
    KeepsEvery(ctx.keep)
  }

  /** The frontier has a parser that `p` leads to. */
  ghost predicate ShiftedFor(ctx: Context, w: Work, p: Path, r: nat) {
    && CanProcess(ctx, w, p) && r in w.tp && r < |w.ns| && Linked(w.ns, r, p.chain[0])
    && w.ns[r].state == ctx.pt.goto[(w.ns[p.chain[0]].state, LhsOf(ctx.pt, p.prod))]
  }

  ghost predicate DoneShifted(ctx: Context, w: Work, done: iset<Path>) {
    forall p :: p in done ==> exists r: nat :: ShiftedFor(ctx, w, p, r)
  }

  ghost predicate StacksStay(w: Work, w': Work) {
    GssStacks(w.ns, w.tp) <= GssStacks(w'.ns, w'.tp)
  }

  /** A step loses no stack, and what it reduces is on the frontier afterwards. */
  lemma StepComplete(ctx: Context, w: Work, done: iset<Path>)
    requires Shape(ctx, w) && Once(ctx, w, done) && w.queue != []
    ensures Ready(ctx.pt, w) && CanProcess(ctx, w, w.queue[0])
    ensures StacksStay(w, Step(ctx, w))
    ensures KeepsAll(ctx) && DoneShifted(ctx, w, done) ==>
              DoneShifted(ctx, Step(ctx, w), done + iset{w.queue[0]})
  {
    StepKeepsStacks(ctx, w, done);
    if KeepsAll(ctx) && DoneShifted(ctx, w, done) {
      forall q | q in done + iset{w.queue[0]} ensures exists r: nat :: ShiftedFor(ctx, Step(ctx, w), q, r) {
        if q in done {
          var u: nat :| ShiftedFor(ctx, w, q, u);
          ShiftedStays(ctx, w, done, q, u);
        } else {
          var u := ShiftedNow(ctx, w, done);
        }
      }
    }
  }

  lemma StepKeepsStacks(ctx: Context, w: Work, done: iset<Path>)
    requires Shape(ctx, w) && Once(ctx, w, done) && w.queue != []
    ensures Ready(ctx.pt, w) && CanProcess(ctx, w, w.queue[0]) && StacksStay(w, Step(ctx, w))
  {
    var grew, r := StepOnce(ctx, w, done);
    var w' := Step(ctx, w);
    if grew {
      forall st, path: seq<nat> | Spells(w.ns, w.tp, path, st) ensures st in GssStacks(w'.ns, w'.tp) {
        PathStays(w.ns, w'.ns, r, w.queue[0].chain[0], path);
        assert Spells(w'.ns, w'.tp, path, st);
      }
    }
  }

  lemma ShiftedStays(ctx: Context, w: Work, done: iset<Path>, p: Path, u: nat)
    requires Shape(ctx, w) && Once(ctx, w, done) && w.queue != [] && ShiftedFor(ctx, w, p, u)
    ensures Ready(ctx.pt, w) && CanProcess(ctx, w, w.queue[0]) && ShiftedFor(ctx, Step(ctx, w), p, u)
  {
    var grew, r := StepOnce(ctx, w, done);
  }

  lemma ShiftedNow(ctx: Context, w: Work, done: iset<Path>) returns (u: nat)
    requires Shape(ctx, w) && Once(ctx, w, done) && w.queue != [] && KeepsAll(ctx)
    requires Ready(ctx.pt, w) && CanProcess(ctx, w, w.queue[0])
    ensures ShiftedFor(ctx, Step(ctx, w), w.queue[0], u)
  {
    var grew, r := StepOnce(ctx, w, done);
    var w1, p := Yielded(w), w.queue[0];
    var l, b := p.chain[0], LhsOf(ctx.pt, p.prod);
    YieldKeepsLinks(w.links, p.chain);
    if grew {
      u := r;
    } else {
      u := FindTop(w1.ns, w1.tp, ctx.pt.goto[(w.ns[l].state, b)]).value;
    }
  }

  ghost predicate AllDone(ctx: Context, w: Work, done: iset<Path>) {
    forall p :: Enabled(ctx.pt, ctx.token, w.ns, w.tp, p) ==> p in done
  }

  /** Once the queue is empty, the stacks are closed under the machine's reductions. */
  lemma ClosedWhenDone(ctx: Context, w: Work, done: iset<Path>, st: seq<nat>, st': seq<nat>)
    requires AllDone(ctx, w, done) && DoneShifted(ctx, w, done)
    requires st in GssStacks(w.ns, w.tp) && ReduceStep(ctx.pt, ctx.token, st, st')
    ensures st' in GssStacks(w.ns, w.tp)
  {
    var path: seq<nat> :| Spells(w.ns, w.tp, path, st);
    var q: nat :| ReducesBy(ctx.pt, ctx.token, st, st', q);
    var k := |path| - 1 - |ctx.pt.prods[q].rhs|;
    var p := Path(q, w.ns[path[k]].column, path[k..]);
    EnabledOnPath(ctx, w, path, k, p);
    ShiftedOnStack(ctx, w, done, p, path, st, st');
  }

  lemma ShiftedOnStack(ctx: Context, w: Work, done: iset<Path>, p: Path, path: seq<nat>, st: seq<nat>, st': seq<nat>)
    requires DoneShifted(ctx, w, done) && p in done
    requires Spells(w.ns, w.tp, path, st) && ReducesBy(ctx.pt, ctx.token, st, st', p.prod)
    requires p.chain == path[|path| - 1 - |ctx.pt.prods[p.prod].rhs|..]
    ensures st' in GssStacks(w.ns, w.tp)
  {
    var r: nat :| ShiftedFor(ctx, w, p, r);
    SpellsPushed(ctx, w, path, st, st', p.prod, r);
  }

  lemma SpellsPushed(ctx: Context, w: Work, path: seq<nat>, st: seq<nat>, st': seq<nat>, q: nat, r: nat)
    requires Spells(w.ns, w.tp, path, st) && ReducesBy(ctx.pt, ctx.token, st, st', q)
    requires r < |w.ns| && r in w.tp && Linked(w.ns, r, path[|path| - 1 - |ctx.pt.prods[q].rhs|])
    requires w.ns[r].state == Last(st')
    ensures st' in GssStacks(w.ns, w.tp)
  {
    var k := |path| - 1 - |ctx.pt.prods[q].rhs|;
    SubPath(w.ns, path, 0, k + 1);
    assert path[0..k + 1] == path[..k + 1];
    PushOnPath(w, path[..k + 1], r);
    assert StatesOf(w.ns, path[..k + 1] + [r]) == st[..k + 1] + [w.ns[r].state];
    assert Spells(w.ns, w.tp, path[..k + 1] + [r], st');
  }

  lemma EnabledOnPath(ctx: Context, w: Work, path: seq<nat>, k: nat, p: Path)
    requires IsPath(w.ns, path) && Last(path) in w.tp && k < |path| && p.prod < |ctx.pt.prods|
    requires k == |path| - 1 - |ctx.pt.prods[p.prod].rhs|
    requires CanReduce(ActionEntry(ctx.pt, w.ns[Last(path)].state, ctx.token), p.prod)
    requires p.chain == path[k..] && p.startColumn == w.ns[path[k]].column
    ensures Enabled(ctx.pt, ctx.token, w.ns, w.tp, p)
    ensures IsPath(w.ns, path[..k + 1])
  {
    SubPath(w.ns, path, k, |path|);
    assert path[k..|path|] == path[k..];
    SubPath(w.ns, path, 0, k + 1);
    assert path[0..k + 1] == path[..k + 1];
  }

  lemma PushOnPath(w: Work, left: seq<nat>, r: nat)
    requires IsPath(w.ns, left) && r < |w.ns| && Linked(w.ns, r, Last(left))
    ensures IsPath(w.ns, left + [r])
  {
    JoinPaths(w.ns, left, [Last(left), r]);
    assert [Last(left), r][1..] == [r];
  }

  lemma {:induction false} RunStaysInside(ctx: Context, w: Work, done: iset<Path>, run: seq<seq<nat>>)
    requires AllDone(ctx, w, done) && DoneShifted(ctx, w, done)
    requires ReduceRun(ctx.pt, ctx.token, run) && run[0] in GssStacks(w.ns, w.tp)
    ensures Last(run) in GssStacks(w.ns, w.tp)
    decreases |run|
  {
    if |run| > 1 {
      var k := |run| - 1;
      RunStaysInside(ctx, w, done, run[..k]);
      ClosedWhenDone(ctx, w, done, run[k - 1], run[k]);
    }
  }

  /** After the reductions of a token the frontier spells only stacks that the machine can reach
      from the stacks before, and all of them when the user cancels nothing. */
  lemma ReducedStacks(ctx: Context, base: iset<seq<nat>>, w: Work, done: iset<Path>)
    requires Shape(ctx, w) && Once(ctx, w, done) && w.queue == []
    requires StackSound(ctx, base, w) && base <= GssStacks(w.ns, w.tp)
    ensures GssStacks(w.ns, w.tp) <= Closure(ctx.pt, ctx.token, base)
    ensures DoneShifted(ctx, w, done) ==> GssStacks(w.ns, w.tp) == Closure(ctx.pt, ctx.token, base)
  {
    forall st, path: seq<nat> | Spells(w.ns, w.tp, path, st) ensures st in Closure(ctx.pt, ctx.token, base) {
      PathsAreReachable(ctx, base, w, path);
    }
    if DoneShifted(ctx, w, done) {
      forall st, b | b in base && Reduces(ctx.pt, ctx.token, b, st) ensures st in GssStacks(w.ns, w.tp) {
        var run :| ReduceRun(ctx.pt, ctx.token, run) && run[0] == b && Last(run) == st;
        RunStaysInside(ctx, w, done, run);
      }
    }
  }
}
