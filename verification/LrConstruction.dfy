/** Building the graph of LR item sets: states are revisited until no lookahead can flow any further. */
module LrConstruction {
  import opened Grammars
  import opened LrMachine
  import opened Language
  import opened ItemClosure
  import opened LrItemSets

  // ---------------------------------------------------------------- growth

  ghost predicate GraphGrew(a: seq<ItemSet>, b: seq<ItemSet>) {
    |a| <= |b| && forall s: nat :: s < |a| ==> SetGrew(a[s], b[s])
  }

  ghost predicate TransKept(a: map<(nat, Symbol), nat>, b: map<(nat, Symbol), nat>) {
    forall e :: e in a ==> e in b && b[e] == a[e]
  }

  ghost predicate StateDone(g: Grammar, lr: LrGraph, s: nat) {
    forall x: Symbol :: SymDone(g, lr, s, x)
  }

  /** A state that did not change is still done when other states grow. */
  lemma SymStays(g: Grammar, lr: LrGraph, lr': LrGraph, s: nat, x: Symbol)
    requires SymDone(g, lr, s, x) && s < |lr.sets| && GraphGrew(lr.sets, lr'.sets) && TransKept(lr.trans, lr'.trans)
    requires lr'.sets[s] == lr.sets[s]
    ensures SymDone(g, lr', s, x)
  {
    if MovedCore(g, All(lr.sets[s]).Keys, x) != {} {
      var u := lr.trans[(s, x)];
      assert SetGrew(lr.sets[u], lr'.sets[u]);
      BelowTrans(MovedItems(g, All(lr.sets[s]), x), lr.sets[u].kernel, lr'.sets[u].kernel);
    }
  }

  lemma StateStays(g: Grammar, lr: LrGraph, lr': LrGraph, s: nat)
    requires StateDone(g, lr, s) && s < |lr.sets| && GraphGrew(lr.sets, lr'.sets) && TransKept(lr.trans, lr'.trans)
    requires lr'.sets[s] == lr.sets[s]
    ensures StateDone(g, lr', s)
  {
    forall x: Symbol ensures SymDone(g, lr', s, x) {
      SymStays(g, lr, lr', s, x);
    }
  }

  lemma GrewTrans(a: seq<ItemSet>, b: seq<ItemSet>, c: seq<ItemSet>)
    requires GraphGrew(a, b) && GraphGrew(b, c)
    ensures GraphGrew(a, c)
  {
    forall s: nat | s < |a| ensures SetGrew(a[s], c[s]) {
      assert SetGrew(a[s], b[s]) && SetGrew(b[s], c[s]);
    }
  }

  lemma GrewBoth(a: seq<ItemSet>, b: seq<ItemSet>)
    requires GraphGrew(a, b) && GraphGrew(b, a)
    ensures a == b
  {
    forall s: nat | s < |a| ensures a[s] == b[s] {
      assert SetGrew(a[s], b[s]) && SetGrew(b[s], a[s]);
      BelowBoth(a[s].kernel, b[s].kernel);
      BelowBoth(a[s].nonkernel, b[s].nonkernel);
    }
  }

  // ---------------------------------------------------------------- termination

  ghost function ItemUniverse(g: Grammar): set<Item> {
    set p: nat, d: nat | p < |g.prods| && d <= |g.prods[p].rhs| :: Item(p, d)
  }

  ghost function CoresLeft(g: Grammar, sets: seq<ItemSet>): set<set<Item>> {
    (set core: set<Item> | core <= ItemUniverse(g)) - (set s: nat | s < |sets| :: sets[s].kernel.Keys)
  }

  ghost predicate Holds(s: ItemSet, it: Item, t: nat) {
    (it in s.kernel && t in s.kernel[it]) || (it in s.nonkernel && t in s.nonkernel[it])
  }

  ghost function LookaheadsLeft(g: Grammar, sets: seq<ItemSet>): set<(nat, Item, nat)> {
    set s: nat, it, t: nat | s < |sets| && it in ItemUniverse(g) && t < g.numTerms
      && !Holds(sets[s], it, t) :: (s, it, t)
  }

  lemma NewCoreCounts(g: Grammar, a: seq<ItemSet>, b: seq<ItemSet>)
    requires GraphGrew(a, b) && |a| < |b| && DistinctCores(b) && b[|a|].kernel.Keys <= ItemUniverse(g)
    ensures CoresLeft(g, b) < CoresLeft(g, a)
  {
    var core := b[|a|].kernel.Keys;
    forall s: nat | s < |a| ensures a[s].kernel.Keys == b[s].kernel.Keys != core {
      assert SetGrew(a[s], b[s]);
    }
    assert core in CoresLeft(g, a) && core !in CoresLeft(g, b);
  }

  lemma SameCoresLeft(g: Grammar, a: seq<ItemSet>, b: seq<ItemSet>)
    requires GraphGrew(a, b) && |a| == |b|
    ensures CoresLeft(g, a) == CoresLeft(g, b)
  {
    forall s: nat | s < |a| ensures a[s].kernel.Keys == b[s].kernel.Keys {
      assert SetGrew(a[s], b[s]);
    }
    assert (set s: nat | s < |a| :: a[s].kernel.Keys) == (set s: nat | s < |b| :: b[s].kernel.Keys);
  }

  lemma NewLookaheadCounts(g: Grammar, a: seq<ItemSet>, b: seq<ItemSet>, s: nat)
    requires GraphGrew(a, b) && |a| == |b| && s < |a| && a[s] != b[s]
    requires forall it :: it in b[s].kernel || it in b[s].nonkernel ==> it in ItemUniverse(g)
    requires forall it :: it in b[s].kernel ==> Terminals(g, b[s].kernel[it])
    requires forall it :: it in b[s].nonkernel ==> Terminals(g, b[s].nonkernel[it])
    requires b[s].kernel.Keys !! b[s].nonkernel.Keys
    ensures LookaheadsLeft(g, b) < LookaheadsLeft(g, a)
  {
    forall e | e in LookaheadsLeft(g, b) ensures e in LookaheadsLeft(g, a) {
      assert SetGrew(a[e.0], b[e.0]);
    }
    assert SetGrew(a[s], b[s]);
    var it, t := NewLookahead(a[s], b[s]);
    assert (s, it, t) in LookaheadsLeft(g, a) && (s, it, t) !in LookaheadsLeft(g, b);
  }

  lemma NewLookahead(a: ItemSet, b: ItemSet) returns (it: Item, t: nat)
    requires SetGrew(a, b) && a != b && b.kernel.Keys !! b.nonkernel.Keys
    ensures (it in b.kernel && t in b.kernel[it]) || (it in b.nonkernel && t in b.nonkernel[it])
    ensures Holds(b, it, t) && !Holds(a, it, t)
  {
    if i :| i in b.kernel && a.kernel[i] != b.kernel[i] {
      it := i;
      t :| t in b.kernel[i] && t !in a.kernel[i];
    } else {
      assert a.kernel == b.kernel;
      assert a.nonkernel != b.nonkernel;
      it :| it in b.nonkernel && a.nonkernel[it] != b.nonkernel[it];
      t :| t in b.nonkernel[it] && t !in a.nonkernel[it];
    }
  }

  lemma SetInUniverse(g: Grammar, info: Info, s: ItemSet, first: bool)
    requires ItemSetOK(g, info, s, first) && NoStart(g)
    ensures forall it :: it in s.kernel || it in s.nonkernel ==> it in ItemUniverse(g)
    ensures forall it :: it in s.kernel ==> Terminals(g, s.kernel[it])
    ensures s.kernel.Keys !! s.nonkernel.Keys
  {
    Disjoint(g, info, s, first);
    forall it | it in s.kernel || it in s.nonkernel ensures ItemIn(g, it) {
      assert KernelItemOK(g, s, first, it);
    }
    forall it | it in s.kernel ensures Terminals(g, s.kernel[it]) {
      assert KernelItemOK(g, s, first, it);
    }
  }

  /** Whatever the graph gains is something it can gain only once. */
  lemma Progress(g: Grammar, info: Info, a: seq<ItemSet>, b: seq<ItemSet>)
    requires NoStart(g) && SetsOK(g, info, b) && DistinctCores(b) && GraphGrew(a, b) && a != b
    ensures CoresLeft(g, b) < CoresLeft(g, a)
            || (CoresLeft(g, b) == CoresLeft(g, a) && LookaheadsLeft(g, b) < LookaheadsLeft(g, a))
  {
    if |a| < |b| {
      SetInUniverse(g, info, b[|a|], |a| == START);
      NewCoreCounts(g, a, b);
    } else {
      SameCoresLeft(g, a, b);
      var s :| 0 <= s < |a| && a[s] != b[s];
      SetInUniverse(g, info, b[s], s == START);
      NewLookaheadCounts(g, a, b, s);
    }
  }

  // ---------------------------------------------------------------- one transition

  datatype LrState = LrState(graph: LrGraph, pending: seq<nat>, done: set<nat>)

  /** Every state is pending or done. */
  ghost predicate Partition(st: LrState) {
    && (forall i, j :: 0 <= i < j < |st.pending| ==> st.pending[i] != st.pending[j])
    && (forall s: nat :: s in st.pending || s in st.done <==> s < |st.graph.sets|)
    && (forall s :: s in st.pending ==> s !in st.done)
  }

  ghost predicate Settled(g: Grammar, info: Info, st: LrState, r: nat) {
    r < |st.graph.sets| ==> UpToDate(g, info, st.graph.sets[r]) && (r in st.done ==> StateDone(g, st.graph, r))
  }

  /** All states but `s` are closed, and done if they are marked done. */
  ghost predicate Others(g: Grammar, info: Info, st: LrState, s: nat) {
    forall r: nat :: r != s ==> Settled(g, info, st, r)
  }

  /** What one transition out of `s` does: `s` itself changes only by lookaheads that flow around a
      self-loop, and is then no longer done. */
  ghost predicate Stepped(g: Grammar, a: LrState, b: LrState, s: nat, x: Symbol, selfGrew: bool) {
    && s < |a.graph.sets| && GraphGrew(a.graph.sets, b.graph.sets) && TransKept(a.graph.trans, b.graph.trans)
    && Marked(g, a, b, s, x, selfGrew)
  }

  ghost predicate Marked(g: Grammar, a: LrState, b: LrState, s: nat, x: Symbol, selfGrew: bool)
    requires s < |a.graph.sets| <= |b.graph.sets|
  {
    && b.graph.sets[s].nonkernel == a.graph.sets[s].nonkernel
    && (b.graph.sets == a.graph.sets ==> b.pending == a.pending)
    && (if selfGrew then s !in b.done else b.graph.sets[s] == a.graph.sets[s])
    && (s in b.done ==> s in a.done && SymDone(g, b.graph, s, x))
  }

  /** State `u` becomes `made`; if it changed, it has to be processed again. */
  function AfterMerge(st: LrState, s: nat, x: Symbol, u: nat, made: ItemSet): LrState
    requires u < |st.graph.sets|
  {
    var graph := LrGraph(st.graph.sets[u := made], st.graph.trans[(s, x) := u]);
    if made != st.graph.sets[u] && u in st.done then LrState(graph, st.pending + [u], st.done - {u})
    else LrState(graph, st.pending, st.done)
  }

  function AfterMake(st: LrState, s: nat, x: Symbol, made: ItemSet): LrState {
    var u := |st.graph.sets|;
    LrState(LrGraph(st.graph.sets + [made], st.graph.trans[(s, x) := u]), st.pending + [u], st.done)
  }

  lemma NotPending(st: LrState, u: nat)
    requires Partition(st) && (u in st.done || u >= |st.graph.sets|)
    ensures forall i :: 0 <= i < |st.pending| ==> st.pending[i] != u
  {
    forall i | 0 <= i < |st.pending| ensures st.pending[i] != u {
      assert st.pending[i] in st.pending;
    }
  }

  lemma MergePartition(st: LrState, s: nat, x: Symbol, u: nat, made: ItemSet)
    requires Partition(st) && u < |st.graph.sets|
    ensures Partition(AfterMerge(st, s, x, u, made))
  {
    if u in st.done {
      NotPending(st, u);
    }
  }

  lemma MergeStepped(g: Grammar, st: LrState, s: nat, x: Symbol, u: nat, moved: Items, made: ItemSet)
    requires s < |st.graph.sets| && u < |st.graph.sets| && ((s, x) in st.graph.trans ==> st.graph.trans[(s, x)] == u)
    requires moved == MovedItems(g, All(st.graph.sets[s]), x) && Below(moved, made.kernel)
    requires SetGrew(st.graph.sets[u], made)
    requires u == s ==> made.nonkernel == st.graph.sets[u].nonkernel
    ensures Stepped(g, st, AfterMerge(st, s, x, u, made), s, x, u == s && made != st.graph.sets[u])
  {
    MergeGrew(st.graph.sets, u, made);
    MergeMarked(g, st, s, x, u, moved, made);
  }

  lemma MergeMarked(g: Grammar, st: LrState, s: nat, x: Symbol, u: nat, moved: Items, made: ItemSet)
    requires s < |st.graph.sets| && u < |st.graph.sets|
    requires moved == MovedItems(g, All(st.graph.sets[s]), x) && Below(moved, made.kernel)
    requires u == s ==> made.nonkernel == st.graph.sets[u].nonkernel
    ensures Marked(g, st, AfterMerge(st, s, x, u, made), s, x, u == s && made != st.graph.sets[u])
  {
    var st' := AfterMerge(st, s, x, u, made);
    assert st'.graph.sets[u] == made;
    if s in st'.done {
      MergeSymDone(g, st.graph.sets[s], st'.graph, s, x, u, moved);
    }
  }

  lemma MergeGrew(sets: seq<ItemSet>, u: nat, made: ItemSet)
    requires u < |sets| && SetGrew(sets[u], made)
    ensures GraphGrew(sets, sets[u := made]) && (made != sets[u] ==> sets[u := made] != sets)
  {
    assert sets[u := made][u] == made;
  }

  lemma MergeSymDone(g: Grammar, from: ItemSet, lr: LrGraph, s: nat, x: Symbol, u: nat, moved: Items)
    requires s < |lr.sets| && u < |lr.sets| && lr.sets[s] == from && (s, x) in lr.trans && lr.trans[(s, x)] == u
    requires moved == MovedItems(g, All(from), x) && Below(moved, lr.sets[u].kernel)
    ensures SymDone(g, lr, s, x)
  {
  }

  lemma MergeOthers(g: Grammar, info: Info, st: LrState, s: nat, x: Symbol, u: nat, made: ItemSet)
    requires Others(g, info, st, s) && u < |st.graph.sets| && ((s, x) in st.graph.trans ==> st.graph.trans[(s, x)] == u)
    requires SetGrew(st.graph.sets[u], made) && (u != s ==> UpToDate(g, info, made))
    ensures Others(g, info, AfterMerge(st, s, x, u, made), s)
  {
    var st' := AfterMerge(st, s, x, u, made);
    assert GraphGrew(st.graph.sets, st'.graph.sets) && TransKept(st.graph.trans, st'.graph.trans);
    forall r: nat | r != s && r < |st.graph.sets| ensures Settled(g, info, st', r) {
      assert Settled(g, info, st, r);
      if r in st'.done {
        assert st'.graph.sets[r] == st.graph.sets[r];
        StateStays(g, st.graph, st'.graph, r);
      }
    }
  }

  lemma MakeStepped(g: Grammar, st: LrState, s: nat, x: Symbol, made: ItemSet)
    requires Partition(st) && s < |st.graph.sets| && (s, x) !in st.graph.trans
    requires made.kernel == MovedItems(g, All(st.graph.sets[s]), x)
    ensures Partition(AfterMake(st, s, x, made))
    ensures Stepped(g, st, AfterMake(st, s, x, made), s, x, false)
  {
    MakePartition(st, s, x, made);
    MakeGrew(st.graph, s, x, made);
    MakeMarked(g, st, s, x, made);
  }

  lemma MakePartition(st: LrState, s: nat, x: Symbol, made: ItemSet)
    requires Partition(st)
    ensures Partition(AfterMake(st, s, x, made))
  {
    var st' := AfterMake(st, s, x, made);
    NotPending(st, |st.graph.sets|);
    assert |st.graph.sets| in st'.pending;
  }

  lemma MakeGrew(lr: LrGraph, s: nat, x: Symbol, made: ItemSet)
    requires (s, x) !in lr.trans
    ensures GraphGrew(lr.sets, lr.sets + [made]) && TransKept(lr.trans, lr.trans[(s, x) := |lr.sets|])
  {
  }

  lemma MakeMarked(g: Grammar, st: LrState, s: nat, x: Symbol, made: ItemSet)
    requires s < |st.graph.sets| && made.kernel == MovedItems(g, All(st.graph.sets[s]), x)
    ensures Marked(g, st, AfterMake(st, s, x, made), s, x, false)
  {
    var st' := AfterMake(st, s, x, made);
    assert |st'.graph.sets| != |st.graph.sets| && st'.graph.sets[s] == st.graph.sets[s];
  }

  lemma MakeOthers(g: Grammar, info: Info, st: LrState, s: nat, x: Symbol, made: ItemSet)
    requires Others(g, info, st, s) && (s, x) !in st.graph.trans && UpToDate(g, info, made) && Partition(st)
    ensures Others(g, info, AfterMake(st, s, x, made), s)
  {
    var st' := AfterMake(st, s, x, made);
    forall r: nat | r != s && r < |st'.graph.sets| ensures Settled(g, info, st', r) {
      if r < |st.graph.sets| {
        assert Settled(g, info, st, r);
        if r in st'.done {
          StateStays(g, st.graph, st'.graph, r);
        }
      }
    }
  }

  ghost predicate StateValid(g: Grammar, info: Info, st: LrState) {
    Partition(st) && Built(g, info, st.graph)
  }

  /** What is known of a state when its moved items have been merged into another. */
  ghost predicate MergeReady(g: Grammar, info: Info, st: LrState, s: nat, x: Symbol, u: nat, moved: Items,
                             made: ItemSet) {
    && StateValid(g, info, st) && Others(g, info, st, s) && s < |st.graph.sets| && u < |st.graph.sets|
    && moved == MovedItems(g, All(st.graph.sets[s]), x) && MovedOK(g, moved) && moved.Keys != {}
    && Merged(g, info, st.graph.sets[u], moved, made)
    && (if u == s then made.nonkernel == st.graph.sets[u].nonkernel else UpToDate(g, info, made))
  }

  lemma MergeTarget(g: Grammar, lr: LrGraph, s: nat, x: Symbol, u: nat, moved: Items)
    requires DistinctCores(lr.sets) && TransitionsOK(g, lr) && s < |lr.sets| && u < |lr.sets|
    requires moved == MovedItems(g, All(lr.sets[s]), x) && moved.Keys != {} && lr.sets[u].kernel.Keys == moved.Keys
    ensures (s, x) in lr.trans ==> lr.trans[(s, x)] == u
  {
    assert TransOK(g, lr, s, x);
    SameTarget(g, lr, s, x, u);
  }

  lemma MergeKeepsOthers(g: Grammar, info: Info, st: LrState, s: nat, x: Symbol, u: nat, moved: Items, made: ItemSet)
    requires MergeReady(g, info, st, s, x, u, moved, made)
    ensures Others(g, info, AfterMerge(st, s, x, u, made), s)
  {
    MergeTarget(g, st.graph, s, x, u, moved);
    MergeOthers(g, info, st, s, x, u, made);
  }

  lemma MergeAdvances(g: Grammar, info: Info, st: LrState, s: nat, x: Symbol, u: nat, moved: Items, made: ItemSet)
    requires MergeReady(g, info, st, s, x, u, moved, made)
    ensures Stepped(g, st, AfterMerge(st, s, x, u, made), s, x, u == s && made != st.graph.sets[u])
  {
    MergeTarget(g, st.graph, s, x, u, moved);
    MergeStepped(g, st, s, x, u, moved, made);
  }

  lemma MergeStep(g: Grammar, info: Info, st: LrState, s: nat, x: Symbol, u: nat, moved: Items, made: ItemSet)
    requires MergeReady(g, info, st, s, x, u, moved, made)
    ensures var st' := AfterMerge(st, s, x, u, made);
            StateValid(g, info, st') && Others(g, info, st', s)
              && Stepped(g, st, st', s, x, u == s && made != st.graph.sets[u])
  {
    MergePartition(st, s, x, u, made);
    MergeKeepsOthers(g, info, st, s, x, u, moved, made);
    MergeAdvances(g, info, st, s, x, u, moved, made);
    MergeBuilt(g, info, st.graph, s, x, u, moved, made);
  }

  lemma MakeKeepsState(g: Grammar, info: Info, st: LrState, s: nat, x: Symbol, made: ItemSet)
    requires StateValid(g, info, st) && Others(g, info, st, s) && s < |st.graph.sets|
    requires made.kernel == MovedItems(g, All(st.graph.sets[s]), x) && made.kernel.Keys != {}
    requires forall u: nat :: u < |st.graph.sets| ==> st.graph.sets[u].kernel.Keys != made.kernel.Keys
    requires UpToDate(g, info, made) && InGrammar(g, made.nonkernel)
    ensures var st' := AfterMake(st, s, x, made);
            StateValid(g, info, st') && Others(g, info, st', s) && Stepped(g, st, st', s, x, false)
  {
    NewBuilt(g, info, st.graph, s, x, made);
    assert TransOK(g, st.graph, s, x);
    MakeStepped(g, st, s, x, made);
    MakeOthers(g, info, st, s, x, made);
  }

  // ---------------------------------------------------------------- one state

  /** What visiting the items `seen` of state `s` has done. */
  ghost predicate Visited(g: Grammar, a: LrState, b: LrState, s: nat, seen: set<Item>, selfGrew: bool) {
    && s < |a.graph.sets| && GraphGrew(a.graph.sets, b.graph.sets) && TransKept(a.graph.trans, b.graph.trans)
    && b.graph.sets[s].nonkernel == a.graph.sets[s].nonkernel
    && (b.graph.sets == a.graph.sets ==> b.pending == a.pending)
    && (if selfGrew then s !in b.done else b.graph.sets[s] == a.graph.sets[s])
    && (s in b.done ==> s in a.done && forall it :: it in seen ==> ItemDone(g, b.graph, s, it))
  }

  ghost predicate ItemDone(g: Grammar, lr: LrGraph, s: nat, it: Item) {
    AfterDot(g, it).Some? ==> SymDone(g, lr, s, AfterDot(g, it).value)
  }

  lemma VisitNone(g: Grammar, a: LrState, s: nat)
    requires s < |a.graph.sets|
    ensures Visited(g, a, a, s, {}, false)
  {
  }

  lemma VisitStep(g: Grammar, a: LrState, b: LrState, c: LrState, s: nat, seen: set<Item>, it: Item, grew: bool,
                  grewNow: bool)
    requires Visited(g, a, b, s, seen, grew) && AfterDot(g, it).Some?
    requires Stepped(g, b, c, s, AfterDot(g, it).value, grewNow)
    ensures Visited(g, a, c, s, seen + {it}, grew || grewNow)
  {
    GrewTrans(a.graph.sets, b.graph.sets, c.graph.sets);
    if c.graph.sets == a.graph.sets {
      GrewBoth(a.graph.sets, b.graph.sets);
    }
    if s in c.done {
      forall i | i in seen && AfterDot(g, i).Some? ensures SymDone(g, c.graph, s, AfterDot(g, i).value) {
        assert ItemDone(g, b.graph, s, i);
        SymStays(g, b.graph, c.graph, s, AfterDot(g, i).value);
      }
    }
  }

  lemma VisitDotAtEnd(g: Grammar, a: LrState, b: LrState, s: nat, seen: set<Item>, it: Item, grew: bool)
    requires Visited(g, a, b, s, seen, grew) && AfterDot(g, it).None?
    ensures Visited(g, a, b, s, seen + {it}, grew)
  {
  }

  lemma VisitBoth(g: Grammar, a: LrState, b: LrState, c: LrState, s: nat, seen: set<Item>, more: set<Item>, grew: bool,
                  grewNow: bool)
    requires Visited(g, a, b, s, seen, grew) && Visited(g, b, c, s, more, grewNow)
    ensures Visited(g, a, c, s, seen + more, grew || grewNow)
  {
    GrewTrans(a.graph.sets, b.graph.sets, c.graph.sets);
    if c.graph.sets == a.graph.sets {
      GrewBoth(a.graph.sets, b.graph.sets);
    }
    if s in c.done {
      forall i | i in seen && AfterDot(g, i).Some? ensures SymDone(g, c.graph, s, AfterDot(g, i).value) {
        assert ItemDone(g, b.graph, s, i);
        SymStays(g, b.graph, c.graph, s, AfterDot(g, i).value);
      }
    }
  }

  /** A state all of whose items were visited while it did not change is done. */
  lemma VisitedAll(g: Grammar, lr: LrGraph, s: nat)
    requires s < |lr.sets| && forall it :: it in All(lr.sets[s]) ==> ItemDone(g, lr, s, it)
    ensures StateDone(g, lr, s)
  {
    forall x: Symbol ensures SymDone(g, lr, s, x) {
      if MovedCore(g, All(lr.sets[s]).Keys, x) != {} {
        var m :| m in MovedCore(g, All(lr.sets[s]).Keys, x);
        MovedBack(g, All(lr.sets[s]).Keys, x, m);
        assert ItemDone(g, lr, s, Item(m.prod, m.dot - 1));
      }
    }
  }

  ghost predicate AllSettled(g: Grammar, info: Info, st: LrState) {
    forall r: nat :: Settled(g, info, st, r)
  }

  function AfterReclose(st: LrState, s: nat, nonkernel: Items): LrState
    requires s < |st.graph.sets|
  {
    st.(graph := st.graph.(sets := st.graph.sets[s := ItemSet(st.graph.sets[s].kernel, nonkernel)]))
  }

  lemma ReclosedOthers(g: Grammar, info: Info, st: LrState, s: nat, nonkernel: Items)
    requires Others(g, info, st, s) && s < |st.graph.sets| && s !in st.done
    requires IsClosure(g, info, st.graph.sets[s].kernel, nonkernel)
    requires SetGrew(st.graph.sets[s], ItemSet(st.graph.sets[s].kernel, nonkernel))
    ensures AllSettled(g, info, AfterReclose(st, s, nonkernel))
    ensures GraphGrew(st.graph.sets, AfterReclose(st, s, nonkernel).graph.sets)
  {
    var st' := AfterReclose(st, s, nonkernel);
    forall r: nat | r < |st.graph.sets| ensures SetGrew(st.graph.sets[r], st'.graph.sets[r]) {
    }
    forall r: nat | r < |st.graph.sets| ensures Settled(g, info, st', r) {
      if r != s {
        assert Settled(g, info, st, r);
        if r in st.done {
          StateStays(g, st.graph, st'.graph, r);
        }
      }
    }
  }

  // ---------------------------------------------------------------- the algorithm

  class LrSets {
    const g: Grammar
    const info: Info
    const work: ClosureWork
    /** By state id. */
    var itemSets: seq<ItemSet>
    var transition: map<(nat, Symbol), nat>
    /** Yet to be processed, or to be processed again. */
    var itemSetsPending: seq<nat>
    /** All outgoing transitions done. */
    var itemSetsDone: set<nat>

    constructor (g: Grammar, info: Info)
      ensures this.g == g && this.info == info && itemSets == [] && fresh(work)
      ensures WorkIdle()
    {
      this.g, this.info := g, info;
      work := new ClosureWork(g, info);
      itemSets, transition, itemSetsPending, itemSetsDone := [], map[], [], {};
    }

    ghost function Graph(): LrGraph
      reads this
    {
      LrGraph(itemSets, transition)
    }

    ghost predicate WorkIdle()
      reads this, work
    {
      work.g == g && work.info == info && work.worklist == [] && work.backPointer == map[]
    }

    ghost function State(): LrState
      reads this
    {
      LrState(Graph(), itemSetsPending, itemSetsDone)
    }

    ghost predicate Valid()
      reads this, work
    {
      WorkIdle() && Partition(State()) && Built(g, info, Graph())
    }

    /** Move the dot over `x`, in the kernel items and then in the nonkernel items. */
    method MoveDotNoClosure(source: ItemSet, x: Symbol) returns (dest: Items)
      requires source.kernel.Keys !! source.nonkernel.Keys
      ensures dest == MovedItems(g, All(source), x)
    {
      var fromKernel := MoveDots(source.kernel, x);
      var fromNonkernel := MoveDots(source.nonkernel, x);
      dest := fromKernel + fromNonkernel;
      MovedUnion(g, source, x);
    }

    method MoveDots(source: Items, x: Symbol) returns (dest: Items)
      ensures dest == MovedItems(g, source, x)
    {
      dest := map[];
      var todo := source.Keys;
      while todo != {}
        invariant todo <= source.Keys
        invariant dest == MovedItems(g, source - todo, x)
        decreases todo
      {
        var it :| it in todo;
        MovedOne(g, source - todo, it, source[it], x);
        assert source - (todo - {it}) == (source - todo)[it := source[it]];
        todo := todo - {it};
        if AfterDot(g, it) == Some(x) {
          dest := dest[Beta(it) := source[it]];
        }
      }
      assert source - {} == source;
    }

    /** Look the state up by its kernel core. */
    method FindItemSet(core: set<Item>) returns (found: Option<nat>)
      ensures found.Some? ==> found.value < |itemSets| && itemSets[found.value].kernel.Keys == core
      ensures found.None? ==> forall s: nat :: s < |itemSets| ==> itemSets[s].kernel.Keys != core
    {
      for s := 0 to |itemSets|
        invariant forall r: nat :: r < s ==> itemSets[r].kernel.Keys != core
      {
        if itemSets[s].kernel.Keys == core {
          return Some(s);
        }
      }
      return None;
    }

    /** Merge the lookaheads of one kernel into another with the same core. */
    method MergeLookaheadsInto(src: Items, dest: Items) returns (merged: Items, changes: bool)
      requires src.Keys == dest.Keys
      ensures merged.Keys == dest.Keys && forall it :: it in src ==> merged[it] == dest[it] + src[it]
      ensures changes <==> merged != dest
    {
      merged, changes := dest, false;
      var todo := src.Keys;
      while todo != {}
        invariant todo <= src.Keys && merged.Keys == dest.Keys && (changes <==> merged != dest)
        invariant forall it :: it in dest ==> merged[it] == if it in todo then dest[it] else dest[it] + src[it]
        decreases todo
      {
        var it :| it in todo;
        todo := todo - {it};
        if !(src[it] <= merged[it]) {
          merged := merged[it := merged[it] + src[it]];
          changes := true;
          assert merged[it] != dest[it];
        } else {
          assert merged[it] + src[it] == merged[it];
        }
      }
    }

    /** Close again, from the nonkernel items that are there. */
    method Reclose(kernel: Items, was: ItemSet, ghost first: bool) returns (closed: Items)
      requires WorkIdle() && InfoInGrammar(g, info) && ItemSetOK(g, info, was, first)
      requires kernel.Keys == was.kernel.Keys && Below(was.kernel, kernel) && forall it :: it in kernel ==>
                Terminals(g, kernel[it])
      modifies work
      ensures WorkIdle() && IsClosure(g, info, kernel, closed) && InGrammar(g, closed)
      ensures Below(was.nonkernel, closed) && closed.Keys == was.nonkernel.Keys
    {
      ghost var k :| ClosureOfLess(g, info, was, k);
      BelowTrans(k, was.kernel, kernel);
      OldClosureStarts(g, info, k, kernel, was.nonkernel);
      closed := work.ItemSetClosure(kernel, was.nonkernel);
      SameCoreSameItems(g, info, k, was.nonkernel, kernel, closed);
    }

    /** We have it already: merge the lookaheads in, and reconsider it if they are news. */
    method MergeIntoState(s: nat, x: Symbol, u: nat, moved: Items) returns (selfGrew: bool)
      requires Valid() && Others(g, info, State(), s) && s < |itemSets| && u < |itemSets|
      requires moved == MovedItems(g, All(itemSets[s]), x) && MovedOK(g, moved)
      requires moved.Keys == itemSets[u].kernel.Keys != {}
      modifies this, work
      ensures Valid() && Others(g, info, State(), s) && Stepped(g, old(State()), State(), s, x, selfGrew)
    {
      assert u != s ==> Settled(g, info, State(), u);
      var made, changes := UpdatedSet(s, u, moved);
      MergeStep(g, info, State(), s, x, u, moved, made);
      StoreSet(s, x, u, made, changes);
      selfGrew := changes && u == s;
    }

    /** The new contents of state `u`; its own closure is put off while its items are being visited. */
    method UpdatedSet(s: nat, u: nat, moved: Items) returns (made: ItemSet, changes: bool)
      requires WorkIdle() && NoStart(g) && InfoInGrammar(g, info) && SetsOK(g, info, itemSets) && u < |itemSets|
      requires MovedOK(g, moved) && moved.Keys == itemSets[u].kernel.Keys && (u != s ==> UpToDate(g, info, itemSets[u]))
      modifies work
      ensures WorkIdle() && Merged(g, info, itemSets[u], moved, made)
      ensures if u == s then made.nonkernel == itemSets[u].nonkernel else UpToDate(g, info, made)
      ensures changes <==> made != itemSets[u]
    {
      made := itemSets[u];
      var merged;
      merged, changes := MergeLookaheadsInto(moved, made.kernel);
      if changes {
        var nonkernel := made.nonkernel;
        if u != s {
          forall it | it in merged ensures Terminals(g, merged[it]) {
            assert KernelItemOK(g, itemSets[u], u == START, it);
          }
          nonkernel := Reclose(merged, made, u == START);
        }
        made := ItemSet(merged, nonkernel);
      }
    }

    method StoreSet(s: nat, x: Symbol, u: nat, made: ItemSet, changes: bool)
      requires u < |itemSets| && (changes <==> made != itemSets[u])
      modifies this
      ensures State() == AfterMerge(old(State()), s, x, u, made)
    {
      if changes && u in itemSetsDone {
        itemSetsDone := itemSetsDone - {u};
        itemSetsPending := itemSetsPending + [u];
      }
      itemSets := itemSets[u := made];
      transition := transition[(s, x) := u];
    }

    /** We do not have it: make the state and close it. */
    method MakeItemSet(s: nat, x: Symbol, moved: Items)
      requires Valid() && Others(g, info, State(), s) && s < |itemSets|
      requires moved == MovedItems(g, All(itemSets[s]), x) && MovedOK(g, moved) && moved.Keys != {}
      requires forall u: nat :: u < |itemSets| ==> itemSets[u].kernel.Keys != moved.Keys
      modifies this, work
      ensures Valid() && Others(g, info, State(), s) && Stepped(g, old(State()), State(), s, x, false)
    {
      ghost var st := State();
      EmptyStarts(moved);
      var nonkernel := work.ItemSetClosure(moved, map[]);
      var made := ItemSet(moved, nonkernel);
      transition := transition[(s, x) := |itemSets|];
      itemSetsPending := itemSetsPending + [|itemSets|];
      itemSets := itemSets + [made];
      MakeKeepsState(g, info, st, s, x, made);
    }

    lemma EmptyStarts(kernel: Items)
      ensures InGrammar(g, map[]) && ClosedFrom(g, info, map[], map[]) && Needed(g, info, kernel, map[])
    {
    }

    /** The transition of state `s` on `x`. */
    method SetTransition(s: nat, x: Symbol) returns (selfGrew: bool)
      requires Valid() && Others(g, info, State(), s) && s < |itemSets| && MovedCore(g, All(itemSets[s]).Keys, x) != {}
      modifies this, work
      ensures Valid() && Others(g, info, State(), s) && Stepped(g, old(State()), State(), s, x, selfGrew)
    {
      Disjoint(g, info, itemSets[s], s == START);
      MovedIsOK(g, info, itemSets[s], s == START, x);
      var moved := MoveDotNoClosure(itemSets[s], x);
      assert moved.Keys == MovedCore(g, All(itemSets[s]).Keys, x);
      var already := FindItemSet(moved.Keys);
      if already.Some? {
        selfGrew := MergeIntoState(s, x, already.value, moved);
      } else {
        selfGrew := false;
        MakeItemSet(s, x, moved);
      }
    }

    /** Visit the items `items` of state `s`. */
    method VisitItems(s: nat, items: set<Item>) returns (selfGrew: bool)
      requires Valid() && Others(g, info, State(), s) && s < |itemSets| && items <= All(itemSets[s]).Keys
      modifies this, work
      ensures Valid() && Others(g, info, State(), s) && Visited(g, old(State()), State(), s, items, selfGrew)
    {
      ghost var st := State();
      selfGrew := false;
      var todo := items;
      VisitNone(g, st, s);
      assert items - todo == {};
      while todo != {}
        invariant Valid() && Others(g, info, State(), s) && todo <= items && s < |itemSets|
        invariant Visited(g, st, State(), s, items - todo, selfGrew)
        decreases todo
      {
        var it :| it in todo;
        assert items - (todo - {it}) == (items - todo) + {it};
        if AfterDot(g, it).Some? {
          ghost var before := State();
          VisitedKeys(g, st, before, s, items - todo, selfGrew);
          assert Beta(it) in MovedCore(g, All(itemSets[s]).Keys, AfterDot(g, it).value);
          var grewNow := SetTransition(s, AfterDot(g, it).value);
          VisitStep(g, st, before, State(), s, items - todo, it, selfGrew, grewNow);
          selfGrew := selfGrew || grewNow;
        } else {
          VisitDotAtEnd(g, st, State(), s, items - todo, it, selfGrew);
        }
        todo := todo - {it};
      }
      assert items - todo == items;
    }

    /** The kernel items, then the nonkernel items. */
    method VisitSet(s: nat) returns (selfGrew: bool)
      requires Valid() && Others(g, info, State(), s) && s < |itemSets|
      modifies this, work
      ensures Valid() && Others(g, info, State(), s)
      ensures Visited(g, old(State()), State(), s, old(itemSets)[s].kernel.Keys + old(itemSets)[s].nonkernel.Keys,
                      selfGrew)
    {
      ghost var st := State();
      var kernelGrew := VisitItems(s, itemSets[s].kernel.Keys);
      ghost var mid := State();
      VisitedKeys(g, st, mid, s, st.graph.sets[s].kernel.Keys, kernelGrew);
      var grewAgain := VisitItems(s, itemSets[s].nonkernel.Keys);
      VisitBoth(g, st, mid, State(), s, st.graph.sets[s].kernel.Keys, mid.graph.sets[s].nonkernel.Keys, kernelGrew,
                grewAgain);
      selfGrew := kernelGrew || grewAgain;
    }

    /** Take the last pending state; it counts as done before its items are visited, so that a
        self-loop can make it pending again. */
    method ProcessItemSet()
      requires Valid() && AllSettled(g, info, State()) && itemSetsPending != []
      modifies this, work
      ensures Valid() && AllSettled(g, info, State()) && GraphGrew(old(itemSets), itemSets)
      ensures itemSets == old(itemSets) ==> |itemSetsPending| == |old(itemSetsPending)| - 1
    {
      var s := PopPending();
      ghost var st := State();
      var mustCloseMyself := VisitSet(s);
      if mustCloseMyself {
        ghost var before := itemSets;
        CloseMyself(s);
        GrewTrans(st.graph.sets, before, itemSets);
        if itemSets == st.graph.sets {
          GrewBoth(st.graph.sets, before);
        }
      } else {
        AllVisited(g, info, st, State(), s);
      }
    }

    method PopPending() returns (s: nat)
      requires Valid() && AllSettled(g, info, State()) && itemSetsPending != []
      modifies this
      ensures Valid() && s < |itemSets| && Others(g, info, State(), s) && Graph() == old(Graph())
      ensures UpToDate(g, info, itemSets[s]) && |itemSetsPending| == |old(itemSetsPending)| - 1
    {
      var k := |itemSetsPending| - 1;
      s := itemSetsPending[k];
      assert s in itemSetsPending && Settled(g, info, State(), s);
      ghost var st := State();
      itemSetsPending := itemSetsPending[..k];
      itemSetsDone := itemSetsDone + {s};
      PopPartition(st);
      forall r: nat | r != s ensures Settled(g, info, State(), r) {
        assert Settled(g, info, st, r);
      }
    }

    /** The postponed closure. */
    method CloseMyself(s: nat)
      requires Valid() && Others(g, info, State(), s) && s < |itemSets| && s !in itemSetsDone
      modifies this, work
      ensures Valid() && AllSettled(g, info, State()) && GraphGrew(old(itemSets), itemSets)
      ensures itemSetsPending == old(itemSetsPending)
    {
      ghost var st := State();
      SetInUniverse(g, info, itemSets[s], s == START);
      var closed := Reclose(itemSets[s].kernel, itemSets[s], s == START);
      RecloseBuilt(g, info, st.graph, s, ItemSet(itemSets[s].kernel, closed));
      itemSets := itemSets[s := ItemSet(itemSets[s].kernel, closed)];
      ReclosedOthers(g, info, st, s, closed);
      assert State() == AfterReclose(st, s, closed);
    }

    /** Start from the closure of the first production and process states until none is pending. */
    method ConstructLRItemSets()
      requires WorkIdle() && NoStart(g) && InfoInGrammar(g, info)
      modifies this, work
      ensures Finished(g, info, Graph())
    {
      var kernel: Items := map[Item(0, 0) := {}];
      EmptyStarts(kernel);
      var nonkernel := work.ItemSetClosure(kernel, map[]);
      itemSets, transition, itemSetsPending, itemSetsDone := [ItemSet(kernel, nonkernel)], map[], [0], {};
      StartBuilt(g, info, itemSets[0]);
      assert itemSetsPending[0] == 0;
      while itemSetsPending != []
        invariant Valid() && AllSettled(g, info, State())
        decreases CoresLeft(g, itemSets), LookaheadsLeft(g, itemSets), |itemSetsPending|
      {
        ghost var before := itemSets;
        ProcessItemSet();
        if itemSets != before {
          Progress(g, info, before, itemSets);
        }
      }
      AllFinished(g, info, State());
    }
  }

  /** Every state is closed and every transition carries its lookaheads. */
  ghost predicate Finished(g: Grammar, info: Info, lr: LrGraph) {
    Built(g, info, lr) && forall s: nat :: s < |lr.sets| ==> UpToDate(g, info, lr.sets[s]) && StateDone(g, lr, s)
  }

  lemma AllFinished(g: Grammar, info: Info, st: LrState)
    requires StateValid(g, info, st) && AllSettled(g, info, st) && st.pending == []
    ensures Finished(g, info, st.graph)
  {
    forall s: nat | s < |st.graph.sets| ensures UpToDate(g, info, st.graph.sets[s]) && StateDone(g, st.graph, s) {
      assert s in st.pending || s in st.done;
      assert Settled(g, info, st, s);
    }
  }

  lemma PopPartition(st: LrState)
    requires Partition(st) && st.pending != []
    ensures var k := |st.pending| - 1;
            Partition(st.(pending := st.pending[..k], done := st.done + {st.pending[k]}))
  {
    var k := |st.pending| - 1;
    var last := st.pending[k];
    assert st.pending == st.pending[..k] + [last] && last in st.pending;
    forall s: nat
      ensures s in st.pending[..k] || s in st.done + {last} <==> s < |st.graph.sets|
      ensures s in st.pending[..k] ==> s !in st.done + {last}
    {
      assert s in st.pending <==> s in st.pending[..k] || s == last;
    }
  }

  lemma VisitedKeys(g: Grammar, a: LrState, b: LrState, s: nat, seen: set<Item>, grew: bool)
    requires Visited(g, a, b, s, seen, grew)
    ensures All(b.graph.sets[s]).Keys == All(a.graph.sets[s]).Keys
  {
    assert SetGrew(a.graph.sets[s], b.graph.sets[s]);
  }

  lemma AllVisited(g: Grammar, info: Info, a: LrState, b: LrState, s: nat)
    requires s < |a.graph.sets|
    requires Visited(g, a, b, s, a.graph.sets[s].kernel.Keys + a.graph.sets[s].nonkernel.Keys, false)
    requires Others(g, info, b, s) && UpToDate(g, info, a.graph.sets[s])
    ensures AllSettled(g, info, b)
  {
    if s in b.done {
      VisitedAll(g, b.graph, s);
    }
    forall r: nat ensures Settled(g, info, b, r) {
    }
  }

  lemma MovedUnion(g: Grammar, s: ItemSet, x: Symbol)
    requires s.kernel.Keys !! s.nonkernel.Keys
    ensures MovedItems(g, s.kernel, x) + MovedItems(g, s.nonkernel, x) == MovedItems(g, All(s), x)
  {
    forall it
      ensures it in MovedCore(g, All(s).Keys, x) <==>
                it in MovedCore(g, s.kernel.Keys, x) || it in MovedCore(g, s.nonkernel.Keys, x)
    {
      MovedBack(g, All(s).Keys, x, it);
      MovedBack(g, s.kernel.Keys, x, it);
      MovedBack(g, s.nonkernel.Keys, x, it);
    }
  }

  lemma MovedOne(g: Grammar, src: Items, it: Item, la: set<nat>, x: Symbol)
    requires it !in src
    ensures MovedItems(g, src[it := la], x)
            == if AfterDot(g, it) == Some(x) then MovedItems(g, src, x)[Beta(it) := la] else MovedItems(g, src, x)
  {
    forall i ensures i in MovedCore(g, src[it := la].Keys, x) <==>
                     i in MovedCore(g, src.Keys, x) || (AfterDot(g, it) == Some(x) && i == Beta(it)) {
      MovedBack(g, src[it := la].Keys, x, i);
      MovedBack(g, src.Keys, x, i);
      assert i.dot > 0 && Item(i.prod, i.dot - 1) == it ==> i == Beta(it);
    }
  }
}
