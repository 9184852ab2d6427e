/** The parser core: a GLR object whose methods update the graph-structured stack in place. */
module GlrParser {
  import opened Grammars
  import opened LrMachine
  import opened Gss
  import opened PathQueue
  import opened Worklist
  import opened ExactlyOnce
  import opened Derivations
  import opened Stacks
  import opened YieldThenMerge
  import opened CompleteForest
  import opened ShiftPhase
  import opened DeterminDepth
  import opened MiniLr
  import opened StackLoops
  import opened FastPathLoops
  import opened Phase
  import opened BuiltTrees
  import opened ValuedMachine
  import opened AllTrees
  import opened Acceptance

  class ReductionPathQueue {
    const pt: ParseTables
    var paths: seq<Path>

    constructor (pt: ParseTables)
      ensures this.pt == pt && paths == []
    {
      this.pt := pt;
      paths := [];
    }

    /** Walk past the paths that need not wait for the new one, and insert there. */
    method InsertPathCopy(p: Path)
      requires ProdsOK(pt, paths) && p.prod < |pt.prods|
      modifies this
      ensures paths == Insert(pt, old(paths), p)
    {
      var i := 0;
      while i < |paths| && !GoesBefore(pt, p, paths[i])
        invariant 0 <= i <= |paths|
        invariant forall j :: 0 <= j < i ==> !GoesBefore(pt, p, paths[j])
      {
        i := i + 1;
      }
      InsertAt(pt, paths, p, i);
      paths := paths[..i] + [p] + paths[i..];
    }

    method Dequeue() returns (p: Path)
      requires paths != []
      modifies this
      ensures p == old(paths)[0] && paths == old(paths)[1..]
    {
      p := paths[0];
      paths := paths[1..];
    }
  }

  /** The search can always pop: no path into `cur` of fewer than `k` links starts at the bottom. */
  ghost predicate CanPop(ns: Pool, cur: nat, k: nat)
    requires cur < |ns| && SibsInPool(ns)
    decreases k
  {
    k > 0 ==> ns[cur].sibs != [] && forall i :: 0 <= i < |ns[cur].sibs| ==> CanPop(ns, ns[cur].sibs[i], k - 1)
  }

  /** Valid tables never make the parser pop more than there is. */
  lemma {:induction false} ReductionCanPop(pt: ParseTables, t: nat, ns: Pool, chain: seq<nat>, p: nat, k: nat)
    requires ValidTables(pt) && GraphOK(pt, ns) && IsPath(ns, chain)
    requires p < |pt.prods| && CanReduce(ActionEntry(pt, ns[Last(chain)].state, t), p)
    requires |chain| + k == |pt.prods[p].rhs| + 1
    ensures CanPop(ns, chain[0], k)
    decreases k
  {
    if k > 0 {
      var u := chain[0];
      assert NodeOK(pt, ns, u);
      PathStates(pt, ns, chain);
      var st := StatesOf(ns, chain);
      assert CanReduce(ActionEntry(pt, Last(st), t), p);
      forall i | 0 <= i < |ns[u].sibs| ensures CanPop(ns, ns[u].sibs[i], k - 1) {
        assert Linked(ns, u, ns[u].sibs[i]);
        JoinPaths(ns, [ns[u].sibs[i], u], chain);
        ReductionCanPop(pt, t, ns, [ns[u].sibs[i], u] + chain[1..], p, k - 1);
      }
    }
  }

  lemma WrapConcat(ns: Pool, p: nat, a: seq<seq<nat>>, b: seq<seq<nat>>)
    requires StartsInPool(ns, a) && StartsInPool(ns, b)
    ensures StartsInPool(ns, a + b) && WrapPaths(ns, p, a + b) == WrapPaths(ns, p, a) + WrapPaths(ns, p, b)
  {
  }

  /** The lexer reports the end of input once, as the last token. */
  ghost predicate EndsOnce(input: seq<nat>) {
    input != [] && Last(input) == EOF && forall i :: 0 <= i < |input| - 1 ==> input[i] != EOF
  }

  lemma LastToken(input: seq<nat>, i: nat)
    requires EndsOnce(input) && i < |input|
    ensures input[i] == EOF <==> i + 1 == |input|
  {
  }

  /** The fast path halts on the whole input: the tables have no loop under its tokens, or none that matters
      because the token can be read. */
  ghost predicate FastPathEnds(pt: ParseTables, keep: (nat, Tree) -> bool, input: seq<nat>) {
    forall i :: 0 <= i < |input| && Loops(pt, input[i]) ==>
      KeepsEvery(keep) && (MachineStacks(pt, input, i) != iset{} ==> MachineStacks(pt, input, i + 1) != iset{})
  }

  lemma NextStacks(pt: ParseTables, input: seq<nat>, n: nat, stacks: iset<seq<nat>>)
    requires n < |input| && stacks <= MachineStacks(pt, input, n)
    ensures AfterToken(pt, input[n], stacks) <= MachineStacks(pt, input, n + 1)
    ensures stacks == MachineStacks(pt, input, n) ==>
              AfterToken(pt, input[n], stacks) == MachineStacks(pt, input, n + 1)
  {
    AfterTokenMonotone(pt, input[n], stacks, MachineStacks(pt, input, n));
  }

  lemma TokenEnds(pt: ParseTables, keep: (nat, Tree) -> bool, input: seq<nat>, n: nat, stacks: iset<seq<nat>>,
                  useMiniLr: bool)
    requires (useMiniLr ==> FastPathEnds(pt, keep, input)) && n < |input| && stacks != iset{}
    requires KeepsEvery(keep) ==> stacks == MachineStacks(pt, input, n)
    ensures useMiniLr && Loops(pt, input[n]) ==> AfterToken(pt, input[n], stacks) != iset{}
  {
    if useMiniLr && Loops(pt, input[n]) {
      assert MachineStacks(pt, input, n + 1) != iset{};
      NextStacks(pt, input, n, stacks);
    }
  }

  /** What the parser has made of a token that came when it was in state `start`. */
  ghost predicate TokenRead(g: Grammar, ctx: Context, start: Work, ok: bool, reduced: Work, w': Work) {
    && (ok ==> Shape(ctx, reduced) && ShiftedFrom(ctx, reduced, Members(reduced.tp), w'))
    && (ok ==> GssStacks(w'.ns, w'.tp) <= AfterToken(ctx.pt, ctx.token, GssStacks(start.ns, start.tp)))
    && (ok && KeepsAll(ctx) ==> GssStacks(w'.ns, w'.tp) == AfterToken(ctx.pt, ctx.token, GssStacks(start.ns, start.tp)))
    && (!ok && KeepsAll(ctx) ==> AfterToken(ctx.pt, ctx.token, GssStacks(start.ns, start.tp)) == iset{})
    && (ok && OrderExact(g, ctx.pt) && KeepsAll(ctx) ==> TreesFollow(ctx.pt, ctx.token, start, w'))
  }

  lemma FullTokenRead(g: Grammar, input: seq<nat>, ctx: Context, start: Work, w: Work, reduced: Work, w': Work,
                      ok: bool)
    requires TokenDone(g, input, ctx, GssStacks(w.ns, w.tp), reduced, w') && (ok <==> w'.tp != [])
    requires OrderExact(g, ctx.pt) && KeepsAll(ctx) ==> TreesFollow(ctx.pt, ctx.token, w, w')
    requires AfterToken(ctx.pt, ctx.token, GssStacks(w.ns, w.tp))
               == AfterToken(ctx.pt, ctx.token, GssStacks(start.ns, start.tp))
    requires TreesRemain(ctx.pt, ctx.token, start, w)
    ensures TokenRead(g, ctx, start, ok, reduced, w')
  {
    RemainThenFollow(ctx.pt, ctx.token, start, w, w');
    NoParserNoStack(w'.ns, w'.tp);
  }

  /** The stacks of the parser are those of the machine, or fewer when the user cancelled some; all trees the
      machine can build are on them. */
  ghost predicate StacksAfter(g: Grammar, pt: ParseTables, keep: (nat, Tree) -> bool, input: seq<nat>, n: nat, w: Work)
    requires n <= |input|
  {
    && GssStacks(w.ns, w.tp) <= MachineStacks(pt, input, n)
    && (KeepsEvery(keep) ==> GssStacks(w.ns, w.tp) == MachineStacks(pt, input, n))
    && (OrderExact(g, pt) && KeepsEvery(keep) ==> ReadCovered(pt, input, n, w))
  }

  lemma TokenReadNext(g: Grammar, ctx: Context, input: seq<nat>, n: nat, start: Work, ok: bool, reduced: Work, w': Work)
    requires n < |input| && ctx.token == input[n] && StacksAfter(g, ctx.pt, ctx.keep, input, n, start)
    requires TokenRead(g, ctx, start, ok, reduced, w')
    ensures ok ==> StacksAfter(g, ctx.pt, ctx.keep, input, n + 1, w')
    ensures !ok && KeepsAll(ctx) ==> MachineStacks(ctx.pt, input, |input|) == iset{}
  {
    NextStacks(ctx.pt, input, n, GssStacks(start.ns, start.tp));
    CoveredNext(ctx.pt, input, n, start, w');
    DeadStaysDead(ctx.pt, input, n + 1);
  }

  class GLR {
    const pt: ParseTables
    /** The user's verdict on a reduced value. */
    const keep: (nat, Tree) -> bool
    /** Whether error entries are factored into a bitmap the fast path consults. */
    const errorBits: bool
    const pathQueue: ReductionPathQueue

    var nodes: Pool
    var determinDepth: seq<nat>
    var topmostParsers: seq<nat>
    var links: Links
    var globalNodeColumn: nat
    var yieldThenMergeCt: nat
    /** The lookahead. */
    var token: nat

    constructor (pt: ParseTables, keep: (nat, Tree) -> bool, errorBits: bool)
      requires 0 < pt.numStates
      ensures fresh(pathQueue) && this.pt == pt && this.keep == keep && this.errorBits == errorBits
      ensures nodes == [StackNode(START, 0, [])] && topmostParsers == [0] && determinDepth == [1]
      ensures links == map[] && globalNodeColumn == 0 && yieldThenMergeCt == 0 && pathQueue.paths == []
      ensures pathQueue.pt == pt
    {
      this.pt := pt;
      this.keep := keep;
      this.errorBits := errorBits;
      pathQueue := new ReductionPathQueue(pt);
      nodes := [StackNode(START, 0, [])];
      determinDepth := [1];
      topmostParsers := [0];
      links := map[];
      globalNodeColumn := 0;
      yieldThenMergeCt := 0;
      token := EOF;
    }

    ghost function W(): Work
      reads this, pathQueue
    {
      Work(nodes, topmostParsers, links, pathQueue.paths, yieldThenMergeCt)
    }

    ghost function Ctx(): Context
      reads this
    {
      Context(pt, token, globalNodeColumn, keep)
    }

    ghost predicate Linkage()
      reads this, pathQueue
    {
      pathQueue.pt == pt && DepthOK(nodes, determinDepth)
    }

    // -------------------------------------------------------------- stack nodes

    method FindTopmostParser(s: nat) returns (r: Option<nat>)
      requires forall i :: 0 <= i < |topmostParsers| ==> topmostParsers[i] < |nodes|
      ensures r == FindTop(nodes, topmostParsers, s)
    {
      assert topmostParsers[0..] == topmostParsers;
      for i := 0 to |topmostParsers|
        invariant FindTop(nodes, topmostParsers, s) == FindTop(nodes, topmostParsers[i..], s)
      {
        if nodes[topmostParsers[i]].state == s {
          return Some(topmostParsers[i]);
        }
        assert topmostParsers[i..][1..] == topmostParsers[i + 1..];
      }
      return None;
    }

    method GetLinkTo(r: nat, l: nat) returns (found: bool)
      requires r < |nodes|
      ensures found <==> Linked(nodes, r, l)
    {
      for i := 0 to |nodes[r].sibs|
        invariant l !in nodes[r].sibs[..i]
      {
        if nodes[r].sibs[i] == l {
          return true;
        }
      }
      return false;
    }

    method HasReferrer(r: nat) returns (yes: bool)
      requires r < |nodes|
      ensures yes <==> exists u: nat :: Linked(nodes, u, r)
    {
      for u := 0 to |nodes|
        invariant forall x: nat :: x < u ==> !Linked(nodes, x, r)
      {
        var there := GetLinkTo(u, r);
        if there {
          return true;
        }
      }
      return false;
    }

    /** The first link makes the node one deeper than its sibling, any further link makes it ambiguous. */
    method AddSiblingLink(r: nat, l: nat, v: Tree)
      requires r < |nodes| == |determinDepth| && l < |nodes|
      modifies this`nodes, this`links, this`determinDepth
      ensures nodes == old(nodes)[r := WithSib(old(nodes)[r], l)]
      ensures links == old(links)[(r, l) := SiblingLink(v, 0)]
      ensures determinDepth == old(determinDepth)[r := if old(nodes)[r].sibs == [] then old(determinDepth)[l] + 1
                                                  else 0]
    {
      determinDepth := determinDepth[r := if nodes[r].sibs == [] then determinDepth[l] + 1 else 0];
      nodes := nodes[r := WithSib(nodes[r], l)];
      links := links[(r, l) := SiblingLink(v, 0)];
    }

    method MakeStackNode(s: nat) returns (u: nat)
      modifies this`nodes, this`determinDepth
      ensures u == |old(nodes)| && nodes == old(nodes) + [StackNode(s, globalNodeColumn, [])]
      ensures determinDepth == old(determinDepth) + [1]
    {
      u := |nodes|;
      nodes := nodes + [StackNode(s, globalNodeColumn, [])];
      determinDepth := determinDepth + [1];
    }

    // -------------------------------------------------------------- enqueueing reductions

    /** Depth-first search for paths of `pops` more links; those missing the required link are ignored. */
    method RwlRecursiveEnqueue(prod: nat, pops: nat, cur: nat, must: Option<Edge>, suffix: seq<nat>)
      requires pathQueue.pt == pt && prod < |pt.prods| && cur < |nodes| && SibsInPool(nodes)
      requires ProdsOK(pt, pathQueue.paths) && CanPop(nodes, cur, pops)
      modifies pathQueue
      ensures StartsInPool(nodes, Enum(nodes, cur, pops, must, suffix))
      ensures pathQueue.paths
              == InsertAll(pt, old(pathQueue.paths), WrapPaths(nodes, prod, Enum(nodes, cur, pops, must, suffix)))
      decreases pops, 0
    {
      EnumStartsInPool(nodes, cur, pops, must, suffix);
      if pops == 0 {
        if must.Some? {
          return;
        }
        OnePath(pt, nodes, cur, suffix, prod, pathQueue.paths);
        pathQueue.InsertPathCopy(Path(prod, nodes[cur].column, [cur] + suffix));
      } else {
        var sibs := nodes[cur].sibs;
        assert sibs != [];
        ghost var goal := InsertAll(pt, pathQueue.paths,
                                    WrapPaths(nodes, prod, EnumSibs(nodes, cur, pops, must, suffix, 0)));
        for i := 0 to |sibs|
          invariant SibsLeft(pt, nodes, cur, pops, must, suffix, i, prod, pathQueue.paths, goal)
        {
          ghost var before := pathQueue.paths;
          RwlCollectPathLink(prod, pops - 1, cur, must, sibs[i], suffix);
          SibsStep(pt, nodes, cur, pops, must, suffix, i, prod, before, pathQueue.paths, goal);
        }
      }
    }

    /** Go on along one link; it is no longer required once it has been taken. */
    method RwlCollectPathLink(prod: nat, pops: nat, cur: nat, must: Option<Edge>, left: nat, suffix: seq<nat>)
      requires pathQueue.pt == pt && prod < |pt.prods| && cur < |nodes| && left < |nodes| && SibsInPool(nodes)
      requires ProdsOK(pt, pathQueue.paths) && CanPop(nodes, left, pops)
      modifies pathQueue
      ensures StartsInPool(nodes, Enum(nodes, left, pops, StillMust(must, cur, left), [cur] + suffix))
      ensures pathQueue.paths
              == InsertAll(pt, old(pathQueue.paths),
                           WrapPaths(nodes, prod, Enum(nodes, left, pops, StillMust(must, cur, left), [cur] + suffix)))
      decreases pops, 1
    {
      var must' := if must == Some((cur, left)) then None else must;
      RwlRecursiveEnqueue(prod, pops, left, must', [cur] + suffix);
    }

    /** Enqueue the reductions of parser `u` whose action is `a`; returns the number of actions. */
    method RwlEnqueueReductions(u: nat, a: Action, must: Option<Edge>) returns (actions: nat)
      requires pathQueue.pt == pt && u < |nodes| && GraphOK(pt, nodes) && ProdsOK(pt, pathQueue.paths)
      requires WellFormedCell(a)
      requires ValidTables(pt) && ProdRange(pt, ReductionsOf(a))
      requires forall p: nat :: CanReduce(a, p) ==> CanReduce(ActionEntry(pt, nodes[u].state, token), p)
      modifies pathQueue
      ensures pathQueue.paths == InsertAll(pt, old(pathQueue.paths), EnqueuedFor(pt, nodes, u, ReductionsOf(a), must))
      ensures actions == if a == Error then 0 else if a.Ambig? then |a.acts| else 1
      decreases a, 1
    {
      match a
      case Shift(_) =>
        return 1;
      case Error =>
        return 0;
      case Reduce(p) =>
        assert CanReduce(a, p) && ReductionsOf(a) == [p];
        ReductionCanPop(pt, token, nodes, [u], p, |pt.prods[p].rhs|);
        RwlRecursiveEnqueue(p, |pt.prods[p].rhs|, u, must, []);
        assert EnqueuedFor(pt, nodes, u, [p][1..], must) == [];
        assert EnqueuedFor(pt, nodes, u, [p], must) == WrapPaths(nodes, p, Enum(nodes, u, |pt.prods[p].rhs|, must, []));
        return 1;
      case Ambig(acts) =>
        EnqueueAmbiguous(u, acts, must);
        return |acts|;
    }

    /** The reductions of an ambiguous entry, one action at a time. */
    method EnqueueAmbiguous(u: nat, acts: seq<Action>, must: Option<Edge>)
      requires pathQueue.pt == pt && u < |nodes| && GraphOK(pt, nodes) && ProdsOK(pt, pathQueue.paths)
      requires WellFormedCell(Ambig(acts)) && ValidTables(pt) && ProdRange(pt, ReductionsIn(acts))
      requires forall p: nat :: CanReduce(Ambig(acts), p) ==> CanReduce(ActionEntry(pt, nodes[u].state, token), p)
      modifies pathQueue
      ensures pathQueue.paths == InsertAll(pt, old(pathQueue.paths),
                                           EnqueuedFor(pt, nodes, u, ReductionsIn(acts), must))
      decreases Ambig(acts), 0
    {
      ghost var goal := InsertAll(pt, pathQueue.paths, EnqueuedFor(pt, nodes, u, ReductionsIn(acts), must));
      assert acts[0..] == acts;
      for i := 0 to |acts|
        invariant ProdsOK(pt, pathQueue.paths) && ProdRange(pt, ReductionsIn(acts[i..]))
        invariant goal == InsertAll(pt, pathQueue.paths, EnqueuedFor(pt, nodes, u, ReductionsIn(acts[i..]), must))
      {
        ghost var before := pathQueue.paths;
        assert acts[i..][0] == acts[i] && acts[i..][1..] == acts[i + 1..];
        FirstOfActs(pt, nodes, u, acts[i..], must, before);
        OneOfActs(acts, i);
        var n := RwlEnqueueReductions(u, acts[i], must);
      }
    }

    /** Let every frontier parser enqueue the reductions that use `must`. */
    method EnqueueForFrontier(us: seq<nat>, must: Option<Edge>)
      requires pathQueue.pt == pt && GraphOK(pt, nodes) && ProdsOK(pt, pathQueue.paths) && ValidTables(pt)
      requires (forall i :: 0 <= i < |us| ==> us[i] < |nodes|) && ReductionsInRange(pt)
      modifies pathQueue
      ensures pathQueue.paths == InsertAll(pt, old(pathQueue.paths), EnqueuedAll(pt, token, nodes, us, must))
    {
      ghost var goal := InsertAll(pt, pathQueue.paths, EnqueuedAll(pt, token, nodes, us, must));
      assert us[0..] == us;
      for i := 0 to |us|
        invariant FrontierLeft(pt, token, nodes, us[i..], must, pathQueue.paths, goal)
      {
        ghost var before := pathQueue.paths;
        var a := ActionEntry(pt, nodes[us[i]].state, token);
        assert us[i..][0] == us[i] && us[i..][1..] == us[i + 1..] && ReductionsRange(pt, nodes[us[i]].state, token);
        var n := RwlEnqueueReductions(us[i], a, must);
        FrontierStep(pt, token, nodes, us[i..], must, before, pathQueue.paths, goal);
      }
    }

    // -------------------------------------------------------------- the reduction worklist

    /** Hand the values along the path to the reduction, from the right, counting each yield. */
    method YieldValues(chain: seq<nat>) returns (values: Forest)
      requires chain != [] && IsPath(nodes, chain) && LinksExact(nodes, links)
      modifies this`links
      ensures links == YieldLinks(old(links), chain) && values == ValuesOf(old(links), chain)
    {
      values := Nil;
      ghost var before := links;
      var i := |chain| - 1;
      assert chain[i..] == [chain[i]];
      while i > 0
        invariant 0 <= i < |chain|
        invariant links == YieldLinks(before, chain[i..]) && values == ValuesOf(before, chain[i..])
      {
        i := i - 1;
        YieldKeepsLinks(before, chain[i + 1..]);
        var e := (chain[i + 1], chain[i]);
        assert Linked(nodes, e.0, e.1);
        assert chain[i..][1..] == chain[i + 1..] && chain[i..][0] == e.1 && chain[i..][1] == e.0;
        values := Cons(links[e].sval, values);
        links := links[e := links[e].(yieldCount := links[e].yieldCount + 1)];
      }
      assert chain[0..] == chain;
    }

    /** Exactly one of these happens: a new node, a new link between existing nodes (returned), a merge
        of two values on an existing link, or nothing because the target is dead. */
    method RwlShiftNonterminal(l: nat, b: nat, v: Tree) returns (newLink: Option<Edge>)
      requires Shape(Ctx(), W()) && Ready(pt, W()) && Linkage()
      requires l < |nodes| && (nodes[l].state, b) in pt.goto
      modifies this`nodes, this`determinDepth, this`topmostParsers, this`links, this`yieldThenMergeCt, pathQueue
      ensures Linkage()
      ensures newLink.Some? <==> OutcomeOf(Ctx(), old(W()), l, b) == NewLink
      ensures newLink.Some? ==>
                && newLink.value.1 == l
                && FindTop(old(nodes), old(topmostParsers), pt.goto[(old(nodes)[l].state, b)]) == Some(newLink.value.0)
                && W() == Link(old(W()), newLink.value.0, l, v) && Shape(Ctx(), W())
      ensures newLink.None? ==> W() == ShiftNonterminal(Ctx(), old(W()), l, b, v)
    {
      var s := pt.goto[(nodes[l].state, b)];
      var found := FindTopmostParser(s);
      if found.Some? {
        var r := found.value;
        var there := GetLinkTo(r, l);
        if there {
          if ActionEntry(pt, s, token) != Error {
            MergeValue((r, l), v);
          }
          return None;
        }
        LinkShape(Ctx(), W(), r, l, b, v);
        LinkNewSibling(r, l, b, v);
        return Some((r, l));
      } else {
        PushAndEnqueue(l, b, v);
        return None;
      }
    }

    /** Combine two values on one link; count it if the old value was already handed out. */
    method MergeValue(e: Edge, v: Tree)
      requires e in links
      modifies this`links, this`yieldThenMergeCt
      ensures W() == Merge(old(W()), e, v)
    {
      var link := links[e];
      links := links[e := link.(sval := Alt(link.sval, v))];
      if link.yieldCount > 0 {
        yieldThenMergeCt := yieldThenMergeCt + 1;
      }
    }

    method PushAndEnqueue(l: nat, b: nat, v: Tree)
      requires Shape(Ctx(), W()) && Ready(pt, W()) && Linkage()
      requires l < |nodes| && (nodes[l].state, b) in pt.goto && OutcomeOf(Ctx(), W(), l, b) == NewNode
      modifies this`nodes, this`determinDepth, this`topmostParsers, this`links, pathQueue
      ensures Linkage() && W() == ShiftNonterminal(Ctx(), old(W()), l, b, v)
    {
      PushShape(Ctx(), W(), l, b, v);
      var u := PushNode(l, pt.goto[(nodes[l].state, b)], v);
      EnqueueForFrontier([u], None);
    }

    method LinkNewSibling(r: nat, l: nat, ghost b: nat, v: Tree)
      requires Shape(Ctx(), W()) && Linkage() && r < |nodes| && r in topmostParsers && l < |nodes|
      requires !Linked(nodes, r, l)
      requires Shape(Ctx(), Link(W(), r, l, v))
      requires (nodes[l].state, b) in pt.goto && nodes[r].state == pt.goto[(nodes[l].state, b)]
      modifies this`nodes, this`determinDepth, this`links
      ensures Linkage() && W() == Link(old(W()), r, l, v)
    {
      assert GotoValid(pt, nodes[l].state, b) && NodeOK(pt, nodes, 0) && NodeOK(pt, nodes, r);
      ghost var ns, depth := nodes, determinDepth;
      AddSiblingLink(r, l, v);
      forall u | 0 <= u < |ns| && u !in topmostParsers ensures determinDepth[u] == Depth(nodes, u) {
        DepthOfOld(pt, ns, nodes, topmostParsers, u);
      }
      var referred := HasReferrer(r);
      if referred {
        var sweeps;
        determinDepth, sweeps := RepairDepths(nodes, topmostParsers, determinDepth, pt);
      } else {
        forall u | 0 <= u < |ns| ensures determinDepth[u] == Depth(nodes, u) {
          forall x: nat ensures !Linked(ns, x, r) {
            assert Linked(ns, x, r) ==> Linked(nodes, x, r);
          }
          if u != r {
            DepthOfOthers(pt, ns, nodes, r, u);
          }
        }
      }
    }

    method PushNode(l: nat, s: nat, v: Tree) returns (u: nat)
      requires Shape(Ctx(), W()) && Linkage() && l < |nodes|
      modifies this`nodes, this`determinDepth, this`links, this`topmostParsers
      ensures Linkage() && W() == Push(Ctx(), old(W()), l, s, v) && u == |old(nodes)|
    {
      ghost var ns := nodes;
      u := MakeStackNode(s);
      AddSiblingLink(u, l, v);
      assert nodes == ns + [StackNode(s, globalNodeColumn, [l])];
      forall x | 0 <= x < |nodes| ensures determinDepth[x] == Depth(nodes, x) {
        forall y: nat ensures !Linked(ns, y, |ns|) {
          assert LinkOK(pt, ns, y, |ns|);
        }
        DepthOfOthers(pt, ns, nodes, |ns|, if x < |ns| then x else l);
      }
      topmostParsers := topmostParsers + [u];
    }

    /** One pass through the loop below: it takes the step of the specification. */
    method ProcessPath(ghost done: iset<Path>)
      requires Shape(Ctx(), W()) && Once(Ctx(), W(), done) && pathQueue.paths != [] && Linkage()
      modifies this`nodes, this`determinDepth, this`topmostParsers, this`links, this`yieldThenMergeCt, pathQueue
      ensures Ready(pt, old(W())) && CanProcess(Ctx(), old(W()), old(W()).queue[0])
      ensures W() == Step(Ctx(), old(W())) && Linkage()
      ensures !keep(LhsOf(pt, old(W()).queue[0].prod), ReducedValue(old(W()))) ==>
                && nodes == old(nodes) && topmostParsers == old(topmostParsers) && links.Keys == old(links).Keys
                && pathQueue.paths == old(pathQueue.paths)[1..]
    {
      ghost var w := W();
      ReadyToShift(Ctx(), w, done);
      if !keep(LhsOf(pt, w.queue[0].prod), ReducedValue(w)) {
        VetoedStep(Ctx(), w);
      }
      var path := pathQueue.Dequeue();
      var values := YieldValues(path.chain);
      assert W() == Yielded(w);
      var sval := Node(path.prod, values);
      var lhs := LhsOf(pt, path.prod);
      if keep(lhs, sval) {
        ShiftReduction(path.chain[0], lhs, sval);
      }
    }

    /** Shift a reduced nonterminal; a new link lets every frontier parser retry its reductions. */
    method ShiftReduction(l: nat, b: nat, v: Tree)
      requires Shape(Ctx(), W()) && Ready(pt, W()) && Linkage()
      requires l < |nodes| && (nodes[l].state, b) in pt.goto
      modifies this`nodes, this`determinDepth, this`topmostParsers, this`links, this`yieldThenMergeCt, pathQueue
      ensures W() == ShiftNonterminal(Ctx(), old(W()), l, b, v) && Linkage()
    {
      var newLink := RwlShiftNonterminal(l, b, v);
      if newLink.Some? {
        EnqueueForFrontier(topmostParsers, newLink);
      }
    }

    /** ... with everything that the step keeps. */
    method ProcessNext(ghost g: Grammar, ghost input: seq<nat>, ghost base: iset<seq<nat>>, ghost start: Work,
                       ghost done: iset<Path>, ghost log: seq<Dequeued>, ghost run: seq<Work>)
      requires PhaseInv(g, input, Ctx(), base, W(), done, log) && Linkage() && PathsStay(start, W())
      requires CountedRun(Ctx(), start, run, W())
      requires pathQueue.paths != []
      modifies this`nodes, this`determinDepth, this`topmostParsers, this`links, this`yieldThenMergeCt, pathQueue
      ensures Linkage() && PathsStay(start, W())
      ensures PhaseInv(g, input, Ctx(), base, W(), done + iset{old(W()).queue[0]}, log + [Entry(Ctx(), old(W()))])
      ensures OrderExact(g, pt) ==> yieldThenMergeCt == old(yieldThenMergeCt)
      ensures CountedRun(Ctx(), start, run + [W()], W())
      ensures RoomForLinks(Ctx(), W()) < old(RoomForLinks(Ctx(), W()))
              || (RoomForLinks(Ctx(), W()) == old(RoomForLinks(Ctx(), W()))
                  && |pathQueue.paths| < |old(pathQueue.paths)|)
    {
      ghost var ctx, w := Ctx(), W();
      StepPhase(g, input, ctx, base, w, done, log);
      StepTerminates(ctx, w, done);
      StepKeepsTrees(ctx, w, done);
      StepCountsLate(ctx, w);
      ProcessPath(done);
      PathsStayOn(start, w, W());
      OneMoreStep(ctx, start, run, w, W());
    }

    /** Process the enabled reductions in priority order until there are none. */
    method RwlProcessWorklist(ghost g: Grammar, ghost input: seq<nat>, ghost base: iset<seq<nat>>)
        returns (ghost done: iset<Path>, ghost log: seq<Dequeued>, ghost run: seq<Work>)
      requires PhaseInv(g, input, Ctx(), base, W(), iset{}, []) && Linkage()
      modifies this`nodes, this`determinDepth, this`topmostParsers, this`links, this`yieldThenMergeCt, pathQueue
      ensures pathQueue.paths == [] && PhaseInv(g, input, Ctx(), base, W(), done, log) && Linkage()
      ensures OrderExact(g, pt) ==> yieldThenMergeCt == old(yieldThenMergeCt)
      ensures forall p :: p in done <==> Enabled(pt, token, nodes, topmostParsers, p)
      ensures PathsStay(old(W()), W())
      ensures CountedRun(Ctx(), old(W()), run, W())
    {
      done, log, run := iset{}, [], [W()];
      while pathQueue.paths != []
        invariant CountedRun(Ctx(), old(W()), run, W())
        invariant PhaseInv(g, input, Ctx(), base, W(), done, log) && Linkage() && PathsStay(old(W()), W())
        invariant OrderExact(g, pt) ==> yieldThenMergeCt == old(yieldThenMergeCt)
        decreases RoomForLinks(Ctx(), W()), |pathQueue.paths|
      {
        ghost var w := W();
        RoomIsNatural(Ctx(), w);
        ProcessNext(g, input, base, old(W()), done, log, run);
        run := run + [W()];
        done, log := done + iset{w.queue[0]}, log + [Entry(Ctx(), w)];
      }
    }

    // -------------------------------------------------------------- shifting the token

    method FindShift(a: Action) returns (d: Option<nat>)
      ensures d == ShiftDest(a)
    {
      match a
      case Shift(dest) =>
        return Some(dest);
      case Reduce(_) =>
        return None;
      case Error =>
        return None;
      case Ambig(acts) =>
        assert acts[0..] == acts;
        for i := 0 to |acts|
          invariant FirstShift(acts) == FirstShift(acts[i..])
        {
          if acts[i].Shift? {
            return Some(acts[i].dest);
          }
          assert acts[i..][1..] == acts[i + 1..];
        }
        return None;
    }

    /** Let `left` shift the token to state `d`, in a node shared by all shifts to that state. */
    method ShiftOne(left: nat, d: nat, ghost ctx: Context, ghost w: Work, ghost from: set<nat>)
      requires Linkage() && Shape(ctx, w) && ShiftedFrom(ctx, w, from, W()) && globalNodeColumn == ctx.column + 1
      requires ctx.token == token && ctx.pt == pt && ctx.keep == keep
      requires left < |w.ns| && left !in from && ShiftOf(ctx, w.ns, left) == Some(d)
      modifies this`nodes, this`determinDepth, this`topmostParsers, this`links
      ensures Linkage() && ShiftedFrom(ctx, w, from + {left}, W())
    {
      ghost var w1 := W();
      ShapeLinksInPool(ctx, w);
      ShiftedDepths(ctx, w, from, w1);
      var found := FindTopmostParser(d);
      if found.Some? {
        ShiftToOld(ctx, w, from, w1, left, found.value);
        ShiftLink(found.value, left, ctx, w, from);
      } else {
        ShiftToNew(ctx, w, from, w1, left, d);
        ShiftNode(left, d, ctx, w, from);
      }
    }

    method ShiftLink(r: nat, left: nat, ghost ctx: Context, ghost w: Work, ghost from: set<nat>)
      requires Linkage() && Shape(ctx, w) && ShiftedFrom(ctx, w, from, W())
      requires left < |w.ns| && r < |nodes| && r in topmostParsers
      modifies this`nodes, this`determinDepth, this`links
      ensures Linkage() && W() == Link(old(W()), r, left, Leaf(token))
    {
      ghost var w1 := W();
      ghost var i :| 0 <= i < |w1.tp| && w1.tp[i] == r;
      assert NewTop(ctx, w1.ns, r);
      AddSiblingLink(r, left, Leaf(token));
      forall u | 0 <= u < |nodes| ensures determinDepth[u] == Depth(nodes, u) {
        if u != r {
          DepthAfterShift(ctx, w, from, w1, nodes, r, u);
        }
      }
    }

    method ShiftNode(left: nat, d: nat, ghost ctx: Context, ghost w: Work, ghost from: set<nat>)
      requires Linkage() && Shape(ctx, w) && ShiftedFrom(ctx, w, from, W()) && globalNodeColumn == ctx.column + 1
      requires left < |w.ns| && ctx.pt == pt && ctx.keep == keep
      modifies this`nodes, this`determinDepth, this`links, this`topmostParsers
      ensures Linkage() && W() == Push(ctx.(column := ctx.column + 1), old(W()), left, d, Leaf(token))
    {
      ghost var w1 := W();
      var r := MakeStackNode(d);
      topmostParsers := topmostParsers + [r];
      AddSiblingLink(r, left, Leaf(token));
      assert nodes == w1.ns + [StackNode(d, globalNodeColumn, [left])];
      forall u | 0 <= u < |nodes| ensures determinDepth[u] == Depth(nodes, u) {
        DepthAfterShift(ctx, w, from, w1, nodes, r, if u < r then u else left);
      }
    }

    /** All topmost parsers shift the token, if they can; those that cannot die. */
    method RwlShiftTerminals()
      requires Shape(Ctx(), W()) && Linkage()
      modifies this`nodes, this`determinDepth, this`topmostParsers, this`links, this`globalNodeColumn
      ensures Linkage() && globalNodeColumn == old(globalNodeColumn) + 1
      ensures ShiftedFrom(old(Ctx()), old(W()), Members(old(topmostParsers)), W())
    {
      ghost var ctx, w := Ctx(), W();
      globalNodeColumn := globalNodeColumn + 1;
      var prevTopmost := topmostParsers;
      topmostParsers := [];
      ShapeLinksInPool(ctx, w);
      ShiftNone(ctx, w);
      assert prevTopmost[|prevTopmost|..] == [];
      while prevTopmost != []
        invariant prevTopmost <= w.tp && Linkage() && globalNodeColumn == ctx.column + 1
        invariant ShiftedFrom(ctx, w, Members(w.tp[|prevTopmost|..]), W())
        decreases |prevTopmost|
      {
        var k := |prevTopmost| - 1;
        var left := prevTopmost[k];
        prevTopmost := prevTopmost[..k];
        ghost var from := Members(w.tp[k + 1..]);
        assert w.tp[k..] == [left] + w.tp[k + 1..];
        assert Members(w.tp[k..]) == from + {left};
        assert left !in from by {
          ghost var rest := w.tp[k + 1..];
          forall j | 0 <= j < |rest| ensures rest[j] != left {
          }
        }
        assert nodes[..|w.ns|][left] == w.ns[left];
        var newState := FindShift(ActionEntry(pt, nodes[left].state, token));
        if newState.Some? {
          ShiftOne(left, newState.value, ctx, w, from);
        } else {
          SkipShift(ctx, w, from, W(), left);
        }
      }
      assert w.tp[0..] == w.tp;
    }

    // -------------------------------------------------------------- one token

    /** What holds between tokens. */
    ghost predicate Parsing(g: Grammar, input: seq<nat>)
      reads this, pathQueue
    {
      && AtRest(Ctx(), W()) && Linkage() && pt.prods == g.prods
      && globalNodeColumn <= |input| && LinksDerive(g, input, pt, nodes, links)
      && LinksBuilt(pt, keep, input, nodes, links)
    }

    /** The full algorithm: enqueue all reductions, process them, then do all shifts. `reduced` is the
        state between the last reduction and the shift. */
    method NondeterministicParseToken(ghost g: Grammar, ghost input: seq<nat>) returns (ok: bool, ghost reduced: Work)
      requires Parsing(g, input) && globalNodeColumn < |input| && input[globalNodeColumn] == token
      modifies this`nodes, this`determinDepth, this`topmostParsers, this`links, this`yieldThenMergeCt,
               this`globalNodeColumn, pathQueue
      ensures Parsing(g, input) && globalNodeColumn == old(globalNodeColumn) + 1
      ensures TokenDone(g, input, old(Ctx()), old(GssStacks(nodes, topmostParsers)), reduced, W())
      ensures ok <==> topmostParsers != []
      ensures OrderExact(g, pt) ==> yieldThenMergeCt == old(yieldThenMergeCt)
      ensures OrderExact(g, pt) && KeepsEvery(keep) ==> TreesFollow(pt, token, old(W()), W())
    {
      ghost var ctx := Ctx();
      ghost var base := GssStacks(nodes, topmostParsers);
      ReducePhase(g, input);
      assert Ctx() == ctx;
      reduced := W();
      ShiftPhaseOf(g, input, base);
      assert TokenDone(g, input, ctx, base, reduced, W());
      if OrderExact(g, pt) && KeepsEvery(keep) {
        FullAlgorithmFollows(ctx, old(W()), reduced, W());
      }
      ok := topmostParsers != [];
    }

    method ShiftPhaseOf(ghost g: Grammar, ghost input: seq<nat>, ghost base: iset<seq<nat>>)
      requires Linkage() && pt.prods == g.prods && Reduced(g, input, Ctx(), base, W())
      requires globalNodeColumn < |input| && input[globalNodeColumn] == token
      modifies this`nodes, this`determinDepth, this`topmostParsers, this`links, this`globalNodeColumn
      ensures Parsing(g, input) && globalNodeColumn == old(globalNodeColumn) + 1
      ensures TokenDone(g, input, old(Ctx()), base, old(W()), W())
    {
      RwlShiftTerminals();
      ShiftEnds(g, input, old(Ctx()), base, old(W()), W());
    }

    method ReducePhase(ghost g: Grammar, ghost input: seq<nat>)
      requires Parsing(g, input) && globalNodeColumn < |input| && input[globalNodeColumn] == token
      modifies this`nodes, this`determinDepth, this`topmostParsers, this`links, this`yieldThenMergeCt, pathQueue
      ensures Linkage() && Reduced(g, input, Ctx(), old(GssStacks(nodes, topmostParsers)), W())
      ensures PathsStay(old(W()), W())
      ensures OrderExact(g, pt) ==> yieldThenMergeCt == old(yieldThenMergeCt)
    {
      ghost var base, w := GssStacks(nodes, topmostParsers), W();
      TablesInRange(pt);
      EnqueueForFrontier(topmostParsers, None);
      StartPhase(g, input, Ctx(), w, W());
      ghost var done, log, run := RwlProcessWorklist(g, input, base);
      EndPhase(g, input, Ctx(), base, W(), done, log);
    }

    // -------------------------------------------------------------- the mini-LR fast path

    /** Pop `k` nodes along first links, collecting their values; the node left on top is returned. */
    method PopNodes(x: nat, k: nat) returns (values: Forest, l: nat)
      requires GraphOK(pt, nodes) && LinksExact(nodes, links) && x < |nodes| && |FirstChain(nodes, x, k)| == k + 1
      ensures FirstChain(nodes, x, k)[0] == l && values == ValuesOf(links, FirstChain(nodes, x, k))
    {
      values, l := Nil, x;
      ghost var suffix: seq<nat> := [];
      var i := k;
      while i > 0
        invariant l < |nodes| && |FirstChain(nodes, l, i)| == i + 1
        invariant FirstChain(nodes, x, k) == FirstChain(nodes, l, i) + suffix
        invariant values == ValuesOf(links, [l] + suffix)
      {
        var v := nodes[l].sibs[0];
        assert Linked(nodes, l, v);
        assert FirstChain(nodes, l, i) + suffix == FirstChain(nodes, v, i - 1) + ([l] + suffix);
        assert ([v] + ([l] + suffix))[1..] == [l] + suffix;
        values := Cons(links[(l, v)].sval, values);
        suffix := [l] + suffix;
        l := v;
        i := i - 1;
      }
    }

    method PushDeterministic(p: nat) returns (sval: Tree)
      requires AtRest(Ctx(), W()) && Linkage() && CanDetReduce(Ctx(), W(), p)
      modifies this`nodes, this`determinDepth, this`topmostParsers, this`links
      ensures Linkage() && DetReady(old(Ctx()), old(W()), p) && W() == DetReduce(Ctx(), old(W()), p)
      ensures sval == Node(p, ValuesOf(old(links), PoppedChain(Ctx(), old(W()), p)))
    {
      PoppedIsOnlyPath(Ctx(), W(), p);
      var values, l := PopNodes(topmostParsers[0], |pt.prods[p].rhs|);
      sval := Node(p, values);
      var newState := pt.goto[(nodes[l].state, LhsOf(pt, p))];
      var u := PushNode(l, newState, sval);
      topmostParsers := [u];
    }

    method ShiftDeterministic(d: nat)
      requires AtRest(Ctx(), W()) && Linkage() && |topmostParsers| == 1
      requires ActionEntry(pt, nodes[topmostParsers[0]].state, token) == Shift(d)
      modifies this`nodes, this`determinDepth, this`topmostParsers, this`links, this`globalNodeColumn
      ensures Linkage() && globalNodeColumn == old(globalNodeColumn) + 1
      ensures ShiftedFrom(old(Ctx()), old(W()), Members(old(topmostParsers)), W()) && |topmostParsers| == 1
    {
      ghost var ctx, w := Ctx(), W();
      var parser := topmostParsers[0];
      globalNodeColumn := globalNodeColumn + 1;
      topmostParsers := [];
      ShapeLinksInPool(ctx, w);
      ShiftNone(ctx, w);
      ShiftToNew(ctx, w, {}, W(), parser, d);
      ShiftNode(parser, d, ctx, w, {});
      assert Members(w.tp) == {} + {parser};
    }

    /** A reduction of the fast path; false if the user cancels it. */
    method ReduceDeterministic(p: nat, ghost g: Grammar, ghost input: seq<nat>, ghost fuel: nat) returns (kept: bool)
      requires Parsing(g, input) && CanDetReduce(Ctx(), W(), p) && DetHalts(Ctx(), W(), fuel)
      requires globalNodeColumn < |input| && input[globalNodeColumn] == token
      modifies this`nodes, this`determinDepth, this`topmostParsers, this`links
      ensures kept ==> fuel > 0 && Parsing(g, input) && DetHalts(Ctx(), W(), fuel - 1) && topmostParsers != []
      ensures kept ==>
                AfterToken(pt, token, GssStacks(nodes, topmostParsers))
                == AfterToken(pt, token, old(GssStacks(nodes, topmostParsers)))
      ensures kept ==> TreesRemain(pt, token, old(W()), W())
      ensures !kept ==> !KeepsEvery(keep) && !DetKept(old(Ctx()), old(W()), p)
    {
      ghost var ctx, w := Ctx(), W();
      DetReduceDerives(g, input, ctx, w, p);
      DetReduceBuilds(g, input, ctx, w, p);
      DetReduceRefines(ctx, w, p);
      DetReduceRemains(ctx, w, p);
      var sval := PushDeterministic(p);
      kept := keep(LhsOf(pt, p), sval);
      assert kept <==> DetKept(ctx, w, p);
    }

    /** The shift that ends the fast path. */
    method ShiftAlone(d: nat, ghost g: Grammar, ghost input: seq<nat>)
      requires Parsing(g, input) && |topmostParsers| == 1 && globalNodeColumn < |input|
      requires input[globalNodeColumn] == token
      requires ActionEntry(pt, nodes[topmostParsers[0]].state, token) == Shift(d)
      modifies this`nodes, this`determinDepth, this`topmostParsers, this`links, this`globalNodeColumn
      ensures Parsing(g, input) && globalNodeColumn == old(globalNodeColumn) + 1 && topmostParsers != []
      ensures GssStacks(nodes, topmostParsers) == AfterToken(pt, token, old(GssStacks(nodes, topmostParsers)))
      ensures ShiftedFrom(old(Ctx()), old(W()), Members(old(topmostParsers)), W())
      ensures TreesFollow(pt, token, old(W()), W())
    {
      ghost var ctx, w := Ctx(), W();
      DetShiftRefines(ctx, w);
      ShiftDeterministic(d);
      FrontierAfterShift(ctx, w, Members(w.tp), W());
      ShiftStacks(ctx, w, W());
      ShiftDerives(g, input, ctx, w, W());
      ShiftBuilds(input, ctx, w, W());
      DetShiftFollows(ctx, w, W());
    }

    /** Act as an ordinary LR parser as long as there is one parser, one action and one way to pop.
        -1: the input or the user's veto stops the parse; 0: use the full algorithm; 1: token shifted. */
    method DeterministicParseToken(ghost g: Grammar, ghost input: seq<nat>)
        returns (r: int, ghost reduced: Work)
      requires Parsing(g, input) && globalNodeColumn < |input| && input[globalNodeColumn] == token
      requires Loops(pt, token) ==> AfterToken(pt, token, GssStacks(nodes, topmostParsers)) != iset{}
      modifies this`nodes, this`determinDepth, this`topmostParsers, this`links, this`globalNodeColumn
      ensures r == -1 || r == 0 || r == 1
      ensures r == -1 ==> KeepsAll(old(Ctx())) ==>
                AfterToken(pt, token, old(GssStacks(nodes, topmostParsers))) == iset{}
      ensures r == -1 ==> DetFails(old(Ctx()), reduced, errorBits) && TreesRemain(pt, token, old(W()), reduced)
      ensures r == 0 ==> NeedsFullAlgorithm(Ctx(), W(), errorBits)
      ensures r == 0 ==>
                && Parsing(g, input) && globalNodeColumn == old(globalNodeColumn)
                && AfterToken(pt, token, GssStacks(nodes, topmostParsers))
                     == AfterToken(pt, token, old(GssStacks(nodes, topmostParsers)))
                && (old(topmostParsers) != [] ==> topmostParsers != [])
                && TreesRemain(pt, token, old(W()), W())
      ensures r == 1 ==>
                && Parsing(g, input) && globalNodeColumn == old(globalNodeColumn) + 1
                && topmostParsers != []
                && GssStacks(nodes, topmostParsers) == AfterToken(pt, token, old(GssStacks(nodes, topmostParsers)))
                && Shape(old(Ctx()), reduced) && ShiftedFrom(old(Ctx()), reduced, Members(reduced.tp), W())
                && TreesFollow(pt, token, old(W()), W())
    {
      StillThere(pt, token, W());
      ghost var fuel := FuelFor(Ctx(), W());
      ghost var ctx, base := Ctx(), GssStacks(nodes, topmostParsers);
      reduced := W();
      while true
        invariant Parsing(g, input) && Ctx() == ctx && DetHalts(ctx, W(), fuel)
        invariant AfterToken(pt, token, GssStacks(nodes, topmostParsers)) == AfterToken(pt, token, base)
        invariant old(topmostParsers) != [] ==> topmostParsers != []
        invariant TreesRemain(pt, token, old(W()), W())
        decreases fuel
      {
        if |topmostParsers| != 1 {
          return 0, W();
        }
        var parser := topmostParsers[0];
        var action := ActionEntry(pt, nodes[parser].state, token);
        if errorBits && action == Error {
          DetErrorRefines(ctx, W());
          return -1, W();
        }
        match action
        case Reduce(p) =>
          assert CanReduce(ActionEntry(pt, nodes[parser].state, token), p);
          if |pt.prods[p].rhs| > determinDepth[parser] {
            return 0, W();
          }
          ghost var w := W();
          var kept := ReduceDeterministic(p, g, input, fuel);
          if !kept {
            return -1, w;
          }
          RemainTwice(pt, token, old(W()), w, W());
          fuel := fuel - 1;
        case Shift(d) =>
          reduced := W();
          ShiftAlone(d, g, input);
          RemainThenFollow(pt, token, old(W()), reduced, W());
          return 1, reduced;
        case _ =>
          return 0, W();
      }
    }

    // -------------------------------------------------------------- the whole input

    /** Finish with the production of the start symbol, which is never reduced in the loop. */
    method CleanupAfterParse(ghost g: Grammar, ghost input: seq<nat>) returns (ok: bool, treeTop: Option<Tree>)
      requires Parsing(g, input) && globalNodeColumn == |input| && topmostParsers != []
      requires UniqueTop(g, pt, nodes, topmostParsers)
      ensures ok && treeTop.Some? && Produces(g, treeTop.value, N(g.prods[0].lhs)) && Yield(treeTop.value) == input
      ensures forall a :: Covers(W(), a) ==> Chooses(treeTop.value, Node(0, ToForest(a.values)))
      ensures TopBuilt(pt, keep, treeTop.value)
    {
      if |topmostParsers| != 1 {
        return false, None;
      }
      var last := topmostParsers[0];
      assert |nodes[last].sibs| == 1;
      var nextToLast := nodes[last].sibs[0];
      assert |nodes[nextToLast].sibs| == 1;
      TopDerives(g, input, pt, nodes, topmostParsers, links, globalNodeColumn);
      OnlyTree(last, nextToLast);
      TopCanBeBuilt(g, input, pt, keep, nodes, topmostParsers, links, globalNodeColumn);
      var arr0, arr1 := links[(nextToLast, nodes[nextToLast].sibs[0])].sval, links[(last, nextToLast)].sval;
      return true, Some(Node(0, Cons(arr0, Cons(arr1, Nil))));
    }

    lemma OnlyTree(x: nat, y: nat)
      requires GraphOK(pt, nodes) && topmostParsers == [x] && x < |nodes| && y < |nodes|
      requires nodes[x].sibs == [y] && nodes[y].sibs == [0] && (x, y) in links && (y, 0) in links
      ensures forall a :: Covers(W(), a) ==>
                Chooses(Node(0, Cons(links[(y, 0)].sval, Cons(links[(x, y)].sval, Nil))), Node(0, ToForest(a.values)))
    {
      assert NodeOK(pt, nodes, 0);
      forall a | Covers(W(), a)
        ensures Chooses(Node(0, Cons(links[(y, 0)].sval, Cons(links[(x, y)].sval, Nil))), Node(0, ToForest(a.values)))
      {
        TopOffers(W(), a, x, y);
      }
    }

    /** Start over with one parser in the start state. */
    method StartParse()
      requires pathQueue.pt == pt
      modifies this`nodes, this`determinDepth, this`topmostParsers, this`links, this`globalNodeColumn
      ensures nodes == [StackNode(START, 0, [])] && topmostParsers == [0] && links == map[] && globalNodeColumn == 0
      ensures Linkage()
    {
      nodes, determinDepth, topmostParsers, links := [], [], [], map[];
      globalNodeColumn := 0;
      var first := MakeStackNode(START);
      topmostParsers := [first];
    }

    /** The full algorithm, after what the fast path has done since `start`. */
    method FullParseToken(ghost g: Grammar, ghost input: seq<nat>, ghost start: Work)
        returns (ok: bool, ghost reduced: Work)
      requires Parsing(g, input) && globalNodeColumn < |input| && input[globalNodeColumn] == token
      requires AfterToken(pt, token, GssStacks(nodes, topmostParsers))
                 == AfterToken(pt, token, GssStacks(start.ns, start.tp))
      requires TreesRemain(pt, token, start, W())
      modifies this`nodes, this`determinDepth, this`topmostParsers, this`links, this`yieldThenMergeCt,
               this`globalNodeColumn, pathQueue
      ensures Parsing(g, input) && globalNodeColumn == old(globalNodeColumn) + 1 && (ok ==> topmostParsers != [])
      ensures TokenRead(g, old(Ctx()), start, ok, reduced, W())
      ensures OrderExact(g, pt) ==> yieldThenMergeCt == old(yieldThenMergeCt)
    {
      ok, reduced := NondeterministicParseToken(g, input);
      FullTokenRead(g, input, old(Ctx()), start, old(W()), reduced, W(), ok);
    }

    /** Each token goes through the fast path, if enabled, and through the full algorithm otherwise. */
    method ParseToken(useMiniLr: bool, ghost g: Grammar, ghost input: seq<nat>) returns (ok: bool, ghost reduced: Work)
      requires Parsing(g, input) && globalNodeColumn < |input| && input[globalNodeColumn] == token
      requires topmostParsers != []
      requires useMiniLr && Loops(pt, token) ==> AfterToken(pt, token, GssStacks(nodes, topmostParsers)) != iset{}
      modifies this`nodes, this`determinDepth, this`topmostParsers, this`links, this`yieldThenMergeCt,
               this`globalNodeColumn, pathQueue
      ensures ok ==> Parsing(g, input) && globalNodeColumn == old(globalNodeColumn) + 1 && topmostParsers != []
      ensures TokenRead(g, old(Ctx()), old(W()), ok, reduced, W())
      ensures OrderExact(g, pt) ==> yieldThenMergeCt == old(yieldThenMergeCt)
    {
      StillThere(pt, token, W());
      ghost var ctx := Ctx();
      var r := 0;
      if useMiniLr {
        r, reduced := DeterministicParseToken(g, input);
        assert r == 0 ==> Ctx() == ctx;
      }
      if r == 0 {
        ok, reduced := FullParseToken(g, input, old(W()));
      } else {
        ok := r == 1;
      }
    }

    /** The parser: accepts iff the LR machine can read the input; the tree it returns derives the input;
        with an exact nonterminal order no merge ever comes after a yield. */
    method GlrParse(input: seq<nat>, useMiniLr: bool, ghost g: Grammar, ghost afterStart: nat, ghost finalState: nat)
        returns (ok: bool, treeTop: Option<Tree>)
      requires ValidTables(pt) && pt.prods == g.prods && 0 < pt.numStates
      requires pathQueue.pt == pt && pathQueue.paths == []
      requires EofShape(g, pt, afterStart, finalState) && (useMiniLr ==> FastPathEnds(pt, keep, input))
      requires EndsOnce(input)
      modifies this, pathQueue
      ensures ok ==> g.prods != [] && treeTop.Some?
      ensures ok ==> Produces(g, treeTop.value, N(g.prods[0].lhs)) && Yield(treeTop.value) == input
      ensures ok ==> TopBuilt(pt, keep, treeTop.value) && EachKept(pt, keep, treeTop.value.kids)
      ensures ok ==> MachineStacks(pt, input, |input|) != iset{}
      ensures KeepsEvery(keep) ==> (ok <==> MachineStacks(pt, input, |input|) != iset{})
      ensures ok && KeepsEvery(keep) && OrderExact(g, pt) ==>
                forall a :: a in ReadStacks(pt, input, |input|) ==> Chooses(treeTop.value, Node(0, ToForest(a.values)))
      ensures OrderExact(g, pt) ==> yieldThenMergeCt == old(yieldThenMergeCt)
    {
      StartParse();
      token := input[0];
      StartIsAtRest(Ctx(), W());
      StartCovered(pt, input, W());
      ok := ReadAll(input, useMiniLr, g, afterStart, finalState);
      if !ok {
        return false, None;
      }
      HasStack(pt, nodes, topmostParsers);
      ok, treeTop := CleanupAfterParse(g, input);
      BuiltAreKept(pt, keep, START, treeTop.value.kids, EOF);
    }

    /** Token by token, until one cannot be read or the end of input has been. */
    method ReadAll(input: seq<nat>, useMiniLr: bool, ghost g: Grammar, ghost afterStart: nat, ghost finalState: nat)
        returns (ok: bool)
      requires EofShape(g, pt, afterStart, finalState) && (useMiniLr ==> FastPathEnds(pt, keep, input))
      requires EndsOnce(input) && ReadSoFar(g, input, 0) && token == input[0]
      modifies this`nodes, this`determinDepth, this`topmostParsers, this`links, this`yieldThenMergeCt,
               this`globalNodeColumn, this`token, pathQueue
      ensures ok ==> ReadSoFar(g, input, |input|) && UniqueTop(g, pt, nodes, topmostParsers)
      ensures !ok && KeepsEvery(keep) ==> MachineStacks(pt, input, |input|) == iset{}
      ensures OrderExact(g, pt) ==> yieldThenMergeCt == old(yieldThenMergeCt)
    {
      var n := 0;
      while true
        invariant n < |input| && token == input[n] && ReadSoFar(g, input, n)
        invariant OrderExact(g, pt) ==> yieldThenMergeCt == old(yieldThenMergeCt)
        decreases |input| - n
      {
        ok := ReadToken(input, n, useMiniLr, g, afterStart, finalState);
        if !ok {
          return;
        }
        n := n + 1;
        if token == EOF {
          return;
        }
        NextToken(input, n, g);
      }
    }

    method NextToken(input: seq<nat>, n: nat, ghost g: Grammar)
      requires n < |input| && ReadSoFar(g, input, n)
      modifies this`token
      ensures token == input[n] && ReadSoFar(g, input, n)
    {
      token := input[n];
    }

    /** The stacks of the parser are those of the machine, or fewer when the user cancelled some. */
    ghost predicate ReadSoFar(g: Grammar, input: seq<nat>, n: nat)
      requires n <= |input|
      reads this, pathQueue
    {
      && Parsing(g, input) && globalNodeColumn == n && topmostParsers != []
      && StacksAfter(g, pt, keep, input, n, W())
    }

    method ReadToken(input: seq<nat>, n: nat, useMiniLr: bool, ghost g: Grammar, ghost afterStart: nat,
                     ghost finalState: nat)
        returns (ok: bool)
      requires EndsOnce(input) && n < |input| && ReadSoFar(g, input, n) && token == input[n]
      requires EofShape(g, pt, afterStart, finalState) && (useMiniLr ==> FastPathEnds(pt, keep, input))
      modifies this`nodes, this`determinDepth, this`topmostParsers, this`links, this`yieldThenMergeCt,
               this`globalNodeColumn, pathQueue
      ensures ok ==> ReadSoFar(g, input, n + 1) && (token == EOF <==> n + 1 == |input|)
      ensures ok && token == EOF ==> UniqueTop(g, pt, nodes, topmostParsers)
      ensures !ok && KeepsEvery(keep) ==> MachineStacks(pt, input, |input|) == iset{}
      ensures OrderExact(g, pt) ==> yieldThenMergeCt == old(yieldThenMergeCt)
    {
      ghost var ctx := Ctx();
      LastToken(input, n);
      ghost var reduced;
      ok, reduced := Advance(input, n, useMiniLr, g);
      if ok && token == EOF {
        FinalTopIsUnique(g, ctx, reduced, W(), afterStart, finalState);
      }
    }

    /** One more token: the stacks of the parser stay those of the machine. */
    method Advance(input: seq<nat>, n: nat, useMiniLr: bool, ghost g: Grammar) returns (ok: bool, ghost reduced: Work)
      requires n < |input| && ReadSoFar(g, input, n) && token == input[n]
      requires useMiniLr ==> FastPathEnds(pt, keep, input)
      modifies this`nodes, this`determinDepth, this`topmostParsers, this`links, this`yieldThenMergeCt,
               this`globalNodeColumn, pathQueue
      ensures ok ==> ReadSoFar(g, input, n + 1)
      ensures ok ==> Shape(old(Ctx()), reduced) && ShiftedFrom(old(Ctx()), reduced, Members(reduced.tp), W())
      ensures !ok && KeepsEvery(keep) ==> MachineStacks(pt, input, |input|) == iset{}
      ensures OrderExact(g, pt) ==> yieldThenMergeCt == old(yieldThenMergeCt)
    {
      HasStack(pt, nodes, topmostParsers);
      TokenEnds(pt, keep, input, n, GssStacks(nodes, topmostParsers), useMiniLr);
      ok, reduced := ParseToken(useMiniLr, g, input);
      TokenReadNext(g, old(Ctx()), input, n, old(W()), ok, reduced, W());
    }
  }

  lemma HasStack(pt: ParseTables, ns: Pool, tp: seq<nat>)
    requires GraphOK(pt, ns) && tp != [] && tp[0] < |ns|
    ensures GssStacks(ns, tp) != iset{}
  {
    var path := ReachesBottom(pt, ns, tp[0]);
    assert Spells(ns, tp, path, StatesOf(ns, path));
    assert StatesOf(ns, path) in GssStacks(ns, tp);
  }

  lemma NoParserNoStack(ns: Pool, tp: seq<nat>)
    ensures tp == [] ==> GssStacks(ns, tp) == iset{}
  {
  }

  lemma NoLinksNoPath(ns: Pool, path: seq<nat>)
    requires IsPath(ns, path) && forall u: nat, v: nat :: !Linked(ns, u, v)
    ensures |path| == 1
  {
    if |path| > 1 {
      FirstLink(ns, path);
    }
  }

  lemma FirstLink(ns: Pool, path: seq<nat>)
    requires IsPath(ns, path) && |path| > 1
    ensures Linked(ns, path[1], path[0])
  {
  }

  lemma StartIsAtRest(ctx: Context, w: Work)
    requires ValidTables(ctx.pt) && 0 < ctx.pt.numStates && ctx.column == 0
    requires w.ns == [StackNode(START, 0, [])] && w.tp == [0] && w.links == map[] && w.queue == []
    ensures AtRest(ctx, w) && GssStacks(w.ns, w.tp) == iset{[START]}
  {
    forall u: nat, v: nat ensures !Linked(w.ns, u, v) {
    }
    assert Spells(w.ns, w.tp, [0], [START]);
    forall st, path: seq<nat> | Spells(w.ns, w.tp, path, st) ensures st == [START] {
      NoLinksNoPath(w.ns, path);
    }
  }

  /** Once no stack is left, none comes back. */
  lemma {:induction false} DeadStaysDead(pt: ParseTables, input: seq<nat>, i: nat)
    requires i <= |input|
    ensures MachineStacks(pt, input, i) == iset{} ==> MachineStacks(pt, input, |input|) == iset{}
    decreases |input| - i
  {
    if i < |input| && MachineStacks(pt, input, i) == iset{} {
      forall st | st in AfterToken(pt, input[i], iset{}) ensures false {
      }
      DeadStaysDead(pt, input, i + 1);
    }
  }

  /** The two values at the top are trees of the two symbols of the start production. */
  lemma TopDerives(g: Grammar, input: seq<nat>, pt: ParseTables, ns: Pool, tp: seq<nat>, links: Links, c: nat)
    requires GraphOK(pt, ns) && LinksExact(ns, links) && LinksDerive(g, input, pt, ns, links) && FrontierOK(ns, tp, c)
    requires UniqueTop(g, pt, ns, tp) && c == |input|
    ensures var x, y := tp[0], ns[tp[0]].sibs[0];
            && (x, y) in links && (y, 0) in links
            && var tree := Node(0, Cons(links[(y, 0)].sval, Cons(links[(x, y)].sval, Nil)));
               Produces(g, tree, N(g.prods[0].lhs)) && Yield(tree) == input
  {
    var x, y := tp[0], ns[tp[0]].sibs[0];
    var rhs := g.prods[0].rhs;
    assert Linked(ns, x, y) && Linked(ns, y, 0);
    assert LinkDerives(g, input, pt, ns, links, x, y) && LinkDerives(g, input, pt, ns, links, y, 0);
    assert LinkOK(pt, ns, x, y) && LinkOK(pt, ns, y, 0);
    assert NodeOK(pt, ns, 0);
    SliceJoin(input, 0, ns[y].column, |input|);
    assert rhs[1..] == [rhs[1]] && rhs[1..][1..] == [];
    var kids := Cons(links[(y, 0)].sval, Cons(links[(x, y)].sval, Nil));
    assert Yields(Cons(links[(x, y)].sval, Nil)) == Yield(links[(x, y)].sval);
    assert ProducesAll(g, kids, rhs);
    assert input[0..|input|] == input;
  }

  /** Both symbols of the start production can be built, one after the other. */
  ghost predicate TopBuilt(pt: ParseTables, keep: (nat, Tree) -> bool, treeTop: Tree) {
    treeTop.Node? && treeTop.prod == 0 && CanBuildAll(pt, keep, START, treeTop.kids, EOF)
  }

  lemma TopCanBeBuilt(g: Grammar, input: seq<nat>, pt: ParseTables, keep: (nat, Tree) -> bool, ns: Pool, tp: seq<nat>,
                      links: Links, c: nat)
    requires GraphOK(pt, ns) && LinksExact(ns, links) && LinksDerive(g, input, pt, ns, links) && FrontierOK(ns, tp, c)
    requires UniqueTop(g, pt, ns, tp) && c == |input| && LinksBuilt(pt, keep, input, ns, links)
    ensures var x, y := tp[0], ns[tp[0]].sibs[0];
            && (x, y) in links && (y, 0) in links
            && TopBuilt(pt, keep, Node(0, Cons(links[(y, 0)].sval, Cons(links[(x, y)].sval, Nil))))
  {
    TopDerives(g, input, pt, ns, tp, links, c);
    var x, y := tp[0], ns[tp[0]].sibs[0];
    assert Linked(ns, x, y) && Linked(ns, y, 0) && NodeOK(pt, ns, 0);
    assert LinkDerives(g, input, pt, ns, links, x, y);
    assert LinkBuilt(pt, keep, input, ns, links, x, y) && LinkBuilt(pt, keep, input, ns, links, y, 0);
    FirstOfSlice(input, ns[y].column, |input|);
    var last := Cons(links[(x, y)].sval, Nil);
    assert Yields(last) == Yield(links[(x, y)].sval) + Yields(Nil);
    assert Yields(last) == input[ns[y].column..|input|];
    assert NextToken(Yields(last), EOF) == TokenAt(input, ns[y].column);
    assert CanBuildAll(pt, keep, ns[y].state, last, EOF);
  }

  /** What the reduction phase has achieved. */
  ghost predicate Reduced(g: Grammar, input: seq<nat>, ctx: Context, base: iset<seq<nat>>, w: Work) {
    && Shape(ctx, w) && w.queue == [] && LinksDerive(g, input, ctx.pt, w.ns, w.links)
    && LinksBuilt(ctx.pt, ctx.keep, input, w.ns, w.links)
    && GssStacks(w.ns, w.tp) <= Closure(ctx.pt, ctx.token, base)
    && (KeepsAll(ctx) ==> GssStacks(w.ns, w.tp) == Closure(ctx.pt, ctx.token, base))
    && (OrderExact(g, ctx.pt) && KeepsAll(ctx) ==> ForestDone(ctx, w))
  }

  /** The token has been shifted after the reductions that led to `reduced`. */
  ghost predicate TokenDone(g: Grammar, input: seq<nat>, ctx: Context, base: iset<seq<nat>>, reduced: Work, w': Work) {
    && Reduced(g, input, ctx, base, reduced) && ShiftedFrom(ctx, reduced, Members(reduced.tp), w')
    && GssStacks(w'.ns, w'.tp) <= AfterToken(ctx.pt, ctx.token, base)
    && (KeepsAll(ctx) ==> GssStacks(w'.ns, w'.tp) == AfterToken(ctx.pt, ctx.token, base))
  }

  lemma ShiftEnds(g: Grammar, input: seq<nat>, ctx: Context, base: iset<seq<nat>>, w: Work, w': Work)
    requires Reduced(g, input, ctx, base, w) && ShiftedFrom(ctx, w, Members(w.tp), w')
    requires ctx.column < |input| && input[ctx.column] == ctx.token
    ensures AtRest(ctx.(column := ctx.column + 1), w') && LinksDerive(g, input, ctx.pt, w'.ns, w'.links)
    ensures LinksBuilt(ctx.pt, ctx.keep, input, w'.ns, w'.links)
    ensures TokenDone(g, input, ctx, base, w, w')
  {
    FrontierAfterShift(ctx, w, Members(w.tp), w');
    ShiftStacks(ctx, w, w');
    ShiftDerives(g, input, ctx, w, w');
    ShiftBuilds(input, ctx, w, w');
  }

  /** While shifting, only the new nodes gain links, and nothing links to them. */
  lemma ShiftedDepths(ctx: Context, w: Work, from: set<nat>, w1: Work)
    requires Shape(ctx, w) && ShiftedFrom(ctx, w, from, w1)
    ensures forall i :: 0 <= i < |w1.tp| ==> w1.tp[i] < |w1.ns|
    ensures forall u: nat, v: nat :: Linked(w1.ns, u, v) ==> v < |w.ns|
  {
    forall u: nat, v: nat | Linked(w1.ns, u, v) ensures v < |w.ns| {
      assert IsShiftLink(ctx, w, from, w1, u, v);
      if u < |w.ns| {
        assert w1.ns[u] == w.ns[u];
        assert LinkOK(ctx.pt, w.ns, u, v);
      }
    }
  }

  lemma {:induction false} DepthAfterShift(ctx: Context, w: Work, from: set<nat>, w1: Work, ns': Pool, r: nat, u: nat)
    requires Shape(ctx, w) && ShiftedFrom(ctx, w, from, w1) && |w.ns| <= r && |w1.ns| <= |ns'| && u < |w1.ns| && u != r
    requires forall x: nat :: x < |w1.ns| && x != r ==> ns'[x].sibs == w1.ns[x].sibs
    ensures Depth(ns', u) == Depth(w1.ns, u)
    decreases u
  {
    if |w1.ns[u].sibs| == 1 && w1.ns[u].sibs[0] < u {
      ShiftedDepths(ctx, w, from, w1);
      assert Linked(w1.ns, u, w1.ns[u].sibs[0]);
      DepthAfterShift(ctx, w, from, w1, ns', r, w1.ns[u].sibs[0]);
    }
  }

  lemma SplitStarts(ns: Pool, a: seq<seq<nat>>, b: seq<seq<nat>>)
    requires StartsInPool(ns, a + b)
    ensures StartsInPool(ns, b)
  {
    forall i | 0 <= i < |b| ensures b[i] != [] && b[i][0] < |ns| {
      assert (a + b)[|a| + i] == b[i];
    }
  }

  /** A path of the required length is the only one from here. */
  lemma OnePath(pt: ParseTables, ns: Pool, cur: nat, suffix: seq<nat>, prod: nat, q: seq<Path>)
    requires cur < |ns| && SibsInPool(ns) && prod < |pt.prods| && ProdsOK(pt, q)
    ensures StartsInPool(ns, Enum(ns, cur, 0, None, suffix))
    ensures ProdsOK(pt, WrapPaths(ns, prod, Enum(ns, cur, 0, None, suffix)))
    ensures InsertAll(pt, q, WrapPaths(ns, prod, Enum(ns, cur, 0, None, suffix)))
            == Insert(pt, q, Path(prod, ns[cur].column, [cur] + suffix))
  {
    assert WrapPaths(ns, prod, Enum(ns, cur, 0, None, suffix)) == [Path(prod, ns[cur].column, [cur] + suffix)];
  }

  /** What is left to enqueue are the paths through the siblings from number `i` on. */
  ghost predicate SibsLeft(pt: ParseTables, ns: Pool, cur: nat, k: nat, must: Option<Edge>, suffix: seq<nat>, i: nat,
                           prod: nat, q: seq<Path>, goal: seq<Path>) {
    && cur < |ns| && k > 0 && i <= |ns[cur].sibs| && SibsInPool(ns) && prod < |pt.prods| && ProdsOK(pt, q)
    && StartsInPool(ns, EnumSibs(ns, cur, k, must, suffix, i))
    && goal == InsertAll(pt, q, WrapPaths(ns, prod, EnumSibs(ns, cur, k, must, suffix, i)))
  }

  lemma SibsStep(pt: ParseTables, ns: Pool, cur: nat, k: nat, must: Option<Edge>, suffix: seq<nat>, i: nat, prod: nat,
                 q: seq<Path>, q': seq<Path>, goal: seq<Path>)
    requires SibsLeft(pt, ns, cur, k, must, suffix, i, prod, q, goal) && i < |ns[cur].sibs|
    requires var first := Enum(ns, ns[cur].sibs[i], k - 1, StillMust(must, cur, ns[cur].sibs[i]), [cur] + suffix);
             StartsInPool(ns, first) && q' == InsertAll(pt, q, WrapPaths(ns, prod, first))
    ensures SibsLeft(pt, ns, cur, k, must, suffix, i + 1, prod, q', goal)
  {
    var first := Enum(ns, ns[cur].sibs[i], k - 1, StillMust(must, cur, ns[cur].sibs[i]), [cur] + suffix);
    var rest := EnumSibs(ns, cur, k, must, suffix, i + 1);
    SplitStarts(ns, first, rest);
    WrapConcat(ns, prod, first, rest);
    InsertAllConcat(pt, q, WrapPaths(ns, prod, first), WrapPaths(ns, prod, rest));
  }

  /** Enqueuing for the first action and then for the rest is enqueuing for all. */
  lemma FirstOfActs(pt: ParseTables, ns: Pool, u: nat, acts: seq<Action>, must: Option<Edge>, q: seq<Path>)
    requires acts != [] && SimpleAction(acts[0]) && u < |ns| && SibsInPool(ns) && ProdsOK(pt, q)
    requires ProdRange(pt, ReductionsIn(acts))
    ensures ProdRange(pt, ReductionsOf(acts[0])) && ProdRange(pt, ReductionsIn(acts[1..]))
    ensures var q' := InsertAll(pt, q, EnqueuedFor(pt, ns, u, ReductionsOf(acts[0]), must));
            ProdsOK(pt, q') && InsertAll(pt, q', EnqueuedFor(pt, ns, u, ReductionsIn(acts[1..]), must))
                               == InsertAll(pt, q, EnqueuedFor(pt, ns, u, ReductionsIn(acts), must))
  {
    OneAction(acts);
    EnqueuedForConcat(pt, ns, u, ReductionsOf(acts[0]), ReductionsIn(acts[1..]), must);
    InsertAllConcat(pt, q, EnqueuedFor(pt, ns, u, ReductionsOf(acts[0]), must),
                    EnqueuedFor(pt, ns, u, ReductionsIn(acts[1..]), must));
  }

  ghost predicate FrontierLeft(pt: ParseTables, t: nat, ns: Pool, us: seq<nat>, must: Option<Edge>, q: seq<Path>,
                               goal: seq<Path>) {
    && SibsInPool(ns) && (forall i :: 0 <= i < |us| ==> us[i] < |ns|) && ReductionsInRange(pt) && ProdsOK(pt, q)
    && goal == InsertAll(pt, q, EnqueuedAll(pt, t, ns, us, must))
  }

  lemma FrontierStep(pt: ParseTables, t: nat, ns: Pool, us: seq<nat>, must: Option<Edge>, q: seq<Path>, q': seq<Path>,
                     goal: seq<Path>)
    requires FrontierLeft(pt, t, ns, us, must, q, goal) && us != []
    requires var ps := ReductionsOf(ActionEntry(pt, ns[us[0]].state, t));
             ProdRange(pt, ps) && q' == InsertAll(pt, q, EnqueuedFor(pt, ns, us[0], ps, must))
    ensures FrontierLeft(pt, t, ns, us[1..], must, q', goal)
  {
    InsertAllConcat(pt, q, EnqueuedFor(pt, ns, us[0], ReductionsOf(ActionEntry(pt, ns[us[0]].state, t)), must),
      EnqueuedAll(pt, t, ns, us[1..], must));
  }

  lemma OneOfActs(acts: seq<Action>, i: nat)
    requires WellFormedCell(Ambig(acts)) && i < |acts|
    ensures SimpleAction(acts[i]) && WellFormedCell(acts[i])
    ensures forall p: nat :: CanReduce(acts[i], p) ==> CanReduce(Ambig(acts), p)
  {
    assert acts[i] in acts;
  }

  lemma OneAction(acts: seq<Action>)
    requires acts != [] && SimpleAction(acts[0])
    ensures ReductionsIn(acts) == ReductionsOf(acts[0]) + ReductionsIn(acts[1..])
  {
  }

  lemma {:induction false} EnqueuedForConcat(pt: ParseTables, ns: Pool, u: nat, a: seq<nat>, b: seq<nat>,
                                             must: Option<Edge>)
    requires u < |ns| && SibsInPool(ns) && ProdRange(pt, a + b)
    ensures ProdRange(pt, a) && ProdRange(pt, b)
    ensures EnqueuedFor(pt, ns, u, a + b, must) == EnqueuedFor(pt, ns, u, a, must) + EnqueuedFor(pt, ns, u, b, must)
  {
    forall i | 0 <= i < |a| ensures a[i] < |pt.prods| {
      assert (a + b)[i] == a[i];
    }
    forall i | 0 <= i < |b| ensures b[i] < |pt.prods| {
      assert (a + b)[|a| + i] == b[i];
    }
    if a == [] {
      assert a + b == b;
    } else {
      assert (a + b)[1..] == a[1..] + b;
      EnqueuedForConcat(pt, ns, u, a[1..], b, must);
    }
  }
}
