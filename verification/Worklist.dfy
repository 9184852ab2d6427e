/** One step of the reduction worklist, as a function on the state it updates. */
module Worklist {
  import opened Grammars
  import opened LrMachine
  import opened Gss
  import opened PathQueue

  datatype SiblingLink = SiblingLink(sval: Tree, yieldCount: nat)

  type Links = map<Edge, SiblingLink>

  /** What stays fixed while a token is processed. */
  datatype Context = Context(pt: ParseTables, token: nat, column: nat, keep: (nat, Tree) -> bool)

  /** What the worklist updates; `ytm` counts merges into links that were already yielded. */
  datatype Work = Work(ns: Pool, tp: seq<nat>, links: Links, queue: seq<Path>, ytm: nat)

  // ---------------------------------------------------------------- enqueueing

  function ReductionsOf(a: Action): seq<nat> {
    match a
    case Reduce(p) => [p]
    case Ambig(acts) => ReductionsIn(acts)
    case _ => []
  }

  function ReductionsIn(acts: seq<Action>): seq<nat> {
    if acts == [] then []
    else if acts[0].Reduce? then [acts[0].prod] + ReductionsIn(acts[1..])
    else ReductionsIn(acts[1..])
  }

  ghost predicate ProdRange(pt: ParseTables, ps: seq<nat>) {
    forall i :: 0 <= i < |ps| ==> ps[i] < |pt.prods|
  }

  function WrapPaths(ns: Pool, p: nat, chains: seq<seq<nat>>): seq<Path>
    requires StartsInPool(ns, chains)
  {
    seq(|chains|, i requires 0 <= i < |chains| => Path(p, ns[chains[i][0]].column, chains[i]))
  }

  ghost predicate StartsInPool(ns: Pool, chains: seq<seq<nat>>) {
    forall i :: 0 <= i < |chains| ==> chains[i] != [] && chains[i][0] < |ns|
  }

  lemma EnumStartsInPool(ns: Pool, cur: nat, k: nat, must: Option<Edge>, suffix: seq<nat>)
    requires cur < |ns| && SibsInPool(ns)
    ensures StartsInPool(ns, Enum(ns, cur, k, must, suffix))
  {
    var chains := Enum(ns, cur, k, must, suffix);
    forall i | 0 <= i < |chains| ensures chains[i] != [] && chains[i][0] < |ns| {
      EnumExact(ns, cur, k, must, suffix, chains[i]);
      assert chains[i][..k + 1][0] < |ns|;
    }
  }

  /** The paths enqueued for the reductions `ps` of the parser at `u`. */
  function EnqueuedFor(pt: ParseTables, ns: Pool, u: nat, ps: seq<nat>, must: Option<Edge>): (r: seq<Path>)
    requires u < |ns| && SibsInPool(ns) && ProdRange(pt, ps)
    ensures ProdsOK(pt, r)
  {
    if ps == [] then []
    else
      EnumStartsInPool(ns, u, |pt.prods[ps[0]].rhs|, must, []);
      WrapPaths(ns, ps[0], Enum(ns, u, |pt.prods[ps[0]].rhs|, must, [])) + EnqueuedFor(pt, ns, u, ps[1..], must)
  }

  /** ... and for all reductions of all the parsers `us`. */
  function EnqueuedAll(pt: ParseTables, t: nat, ns: Pool, us: seq<nat>, must: Option<Edge>): (r: seq<Path>)
    requires SibsInPool(ns) && (forall i :: 0 <= i < |us| ==> us[i] < |ns|) && ReductionsInRange(pt)
    ensures ProdsOK(pt, r)
  {
    if us == [] then []
    else
      assert ReductionsRange(pt, ns[us[0]].state, t);
      EnqueuedFor(pt, ns, us[0], ReductionsOf(ActionEntry(pt, ns[us[0]].state, t)), must)
      + EnqueuedAll(pt, t, ns, us[1..], must)
  }

  ghost predicate ReductionsRange(pt: ParseTables, s: nat, t: nat) {
    ProdRange(pt, ReductionsOf(ActionEntry(pt, s, t)))
  }

  ghost predicate ReductionsInRange(pt: ParseTables) {
    forall s: nat, t: nat :: ReductionsRange(pt, s, t)
  }

  lemma {:induction false} ReductionsInExact(acts: seq<Action>, p: nat)
    ensures p in ReductionsIn(acts) <==> Reduce(p) in acts
  {
    if acts != [] {
      ReductionsInExact(acts[1..], p);
      assert acts == [acts[0]] + acts[1..];
    }
  }

  lemma {:induction false} ReductionsInDistinct(acts: seq<Action>)
    requires Distinct(acts)
    ensures Distinct(ReductionsIn(acts))
  {
    if acts != [] {
      ReductionsInDistinct(acts[1..]);
      if acts[0].Reduce? {
        ReductionsInExact(acts[1..], acts[0].prod);
      }
    }
  }

  lemma ReductionsExact(pt: ParseTables, s: nat, t: nat)
    requires ValidTables(pt)
    ensures Distinct(ReductionsOf(ActionEntry(pt, s, t))) && ReductionsRange(pt, s, t)
    ensures forall p: nat :: p in ReductionsOf(ActionEntry(pt, s, t)) <==> CanReduce(ActionEntry(pt, s, t), p)
  {
    var a := ActionEntry(pt, s, t);
    assert WellFormedCell(a);
    if a.Ambig? {
      ReductionsInDistinct(a.acts);
    }
    forall p: nat ensures p in ReductionsOf(a) <==> CanReduce(a, p) {
      if a.Ambig? {
        ReductionsInExact(a.acts, p);
      }
    }
    var ps := ReductionsOf(a);
    forall i | 0 <= i < |ps| ensures ps[i] < |pt.prods| {
      assert CanReduce(ActionEntry(pt, s, t), ps[i]);
    }
  }

  lemma TablesInRange(pt: ParseTables)
    requires ValidTables(pt)
    ensures ReductionsInRange(pt)
  {
    forall s: nat, t: nat ensures ReductionsRange(pt, s, t) {
      ReductionsExact(pt, s, t);
    }
  }

  /** A reduction some frontier parser can make under lookahead `t`. */
  ghost predicate Enabled(pt: ParseTables, t: nat, ns: Pool, tp: seq<nat>, p: Path) {
    && IsPath(ns, p.chain) && Last(p.chain) in tp && EnabledAt(pt, t, ns, p)
  }

  ghost predicate EnabledAt(pt: ParseTables, t: nat, ns: Pool, p: Path)
    requires IsPath(ns, p.chain)
  {
    && p.prod < |pt.prods| && |p.chain| == |pt.prods[p.prod].rhs| + 1
    && CanReduce(ActionEntry(pt, ns[Last(p.chain)].state, t), p.prod)
    && p.startColumn == ns[p.chain[0]].column
  }

  /** The paths of production `q` into `u`. */
  ghost predicate PathBy(pt: ParseTables, ns: Pool, u: nat, q: nat, must: Option<Edge>, p: Path) {
    && q < |pt.prods| && p.prod == q && IsPath(ns, p.chain) && Last(p.chain) == u
    && |p.chain| == |pt.prods[q].rhs| + 1 && p.startColumn == ns[p.chain[0]].column
    && (must.Some? ==> Uses(p.chain, must.value))
  }

  lemma WrapExact(pt: ParseTables, ns: Pool, u: nat, q: nat, must: Option<Edge>)
    requires u < |ns| && SibsInPool(ns) && q < |pt.prods|
    requires forall w: nat :: w < |ns| ==> Distinct(ns[w].sibs)
    ensures var chains := Enum(ns, u, |pt.prods[q].rhs|, must, []);
            && StartsInPool(ns, chains)
            && Distinct(WrapPaths(ns, q, chains))
            && forall p :: p in WrapPaths(ns, q, chains) <==> PathBy(pt, ns, u, q, must, p)
  {
    var k := |pt.prods[q].rhs|;
    var chains := Enum(ns, u, k, must, []);
    EnumStartsInPool(ns, u, k, must, []);
    EnumDistinct(ns, u, k, must, []);
    var w := WrapPaths(ns, q, chains);
    forall i, j | 0 <= i < j < |w| ensures w[i] != w[j] {
      assert w[i].chain == chains[i] && w[j].chain == chains[j];
    }
    forall p ensures p in w <==> PathBy(pt, ns, u, q, must, p) {
      EnumExact(ns, u, k, must, [], p.chain);
      if p in w {
        var i :| 0 <= i < |w| && w[i] == p;
        assert p.chain == chains[i];
        assert p.chain[..k + 1] == p.chain;
      }
      if PathBy(pt, ns, u, q, must, p) {
        assert p.chain[..k + 1] == p.chain;
        var i :| 0 <= i < |chains| && chains[i] == p.chain;
        assert w[i] == p;
      }
    }
  }

  lemma {:induction false} EnqueuedForExact(pt: ParseTables, ns: Pool, u: nat, ps: seq<nat>, must: Option<Edge>)
    requires u < |ns| && SibsInPool(ns) && ProdRange(pt, ps) && Distinct(ps)
    requires forall w: nat :: w < |ns| ==> Distinct(ns[w].sibs)
    ensures Distinct(EnqueuedFor(pt, ns, u, ps, must))
    ensures forall p :: p in EnqueuedFor(pt, ns, u, ps, must) <==> p.prod in ps && PathBy(pt, ns, u, p.prod, must, p)
  {
    if ps != [] {
      var q := ps[0];
      WrapExact(pt, ns, u, q, must);
      EnqueuedForExact(pt, ns, u, ps[1..], must);
      var first := WrapPaths(ns, q, Enum(ns, u, |pt.prods[q].rhs|, must, []));
      var rest := EnqueuedFor(pt, ns, u, ps[1..], must);
      assert EnqueuedFor(pt, ns, u, ps, must) == first + rest;
      assert ps == [q] + ps[1..];
      assert q !in ps[1..] by {
        forall j | 0 <= j < |ps[1..]| ensures ps[1..][j] != q {
        }
      }
      ConcatDistinct(first, rest);
    }
  }

  /** A path with right end `u` that uses `must`. */
  ghost predicate EnqueuedHere(pt: ParseTables, t: nat, ns: Pool, us: seq<nat>, must: Option<Edge>, p: Path) {
    Enabled(pt, t, ns, us, p) && (must.Some? ==> Uses(p.chain, must.value))
  }

  /** Enqueueing for the parsers `us` lists exactly their enabled reductions through `must`, once each. */
  lemma {:induction false} EnqueuedAllExact(pt: ParseTables, t: nat, ns: Pool, us: seq<nat>, must: Option<Edge>)
    requires ValidTables(pt) && GraphOK(pt, ns) && ReductionsInRange(pt)
    requires (forall i :: 0 <= i < |us| ==> us[i] < |ns|) && Distinct(us)
    ensures Distinct(EnqueuedAll(pt, t, ns, us, must))
    ensures forall p :: p in EnqueuedAll(pt, t, ns, us, must) <==> EnqueuedHere(pt, t, ns, us, must, p)
  {
    if us != [] {
      var u := us[0];
      var a := ActionEntry(pt, ns[u].state, t);
      forall w: nat | w < |ns| ensures Distinct(ns[w].sibs) {
        assert NodeOK(pt, ns, w);
      }
      ReductionsExact(pt, ns[u].state, t);
      EnqueuedForExact(pt, ns, u, ReductionsOf(a), must);
      EnqueuedAllExact(pt, t, ns, us[1..], must);
      var first := EnqueuedFor(pt, ns, u, ReductionsOf(a), must);
      var rest := EnqueuedAll(pt, t, ns, us[1..], must);
      assert us == [u] + us[1..];
      assert u !in us[1..] by {
        forall j | 0 <= j < |us[1..]| ensures us[1..][j] != u {
        }
      }
      forall p ensures p in first <==> EnqueuedHere(pt, t, ns, us, must, p) && Last(p.chain) == u {
      }
      ConcatDistinct(first, rest);
    }
  }

  // ---------------------------------------------------------------- yielding and shifting

  /** The values on the links of a path, left to right. */
  function ValuesOf(links: Links, chain: seq<nat>): Forest {
    if |chain| <= 1 then Nil
    else
      var e := (chain[1], chain[0]);
      Cons(if e in links then links[e].sval else Leaf(0), ValuesOf(links, chain[1..]))
  }

  function Bump(links: Links, e: Edge): Links {
    if e in links then links[e := links[e].(yieldCount := links[e].yieldCount + 1)] else links
  }

  /** Every link of the path, from the right, hands its value to the reduction. */
  function YieldLinks(links: Links, chain: seq<nat>): Links {
    if |chain| <= 1 then links else Bump(YieldLinks(links, chain[1..]), (chain[1], chain[0]))
  }

  /** The position of the frontier parser in state `s`. */
  function FindTop(ns: Pool, tp: seq<nat>, s: nat): (r: Option<nat>)
    requires forall i :: 0 <= i < |tp| ==> tp[i] < |ns|
    ensures match r
            case Some(u) => u in tp && u < |ns| && ns[u].state == s
            case None => forall u :: u in tp ==> ns[u].state != s
  {
    if tp == [] then None
    else if ns[tp[0]].state == s then Some(tp[0])
    else
      assert tp == [tp[0]] + tp[1..];
      FindTop(ns, tp[1..], s)
  }

  /** The first link is embedded in the node, later ones are prepended to its list. */
  function WithSib(n: StackNode, l: nat): StackNode {
    n.(sibs := if n.sibs == [] then [l] else [n.sibs[0], l] + n.sibs[1..])
  }

  function Push(ctx: Context, w: Work, l: nat, s: nat, v: Tree): Work {
    w.(ns := w.ns + [StackNode(s, ctx.column, [l])],
       tp := w.tp + [|w.ns|],
       links := w.links[(|w.ns|, l) := SiblingLink(v, 0)])
  }

  function Link(w: Work, r: nat, l: nat, v: Tree): Work
    requires r < |w.ns|
  {
    w.(ns := w.ns[r := WithSib(w.ns[r], l)], links := w.links[(r, l) := SiblingLink(v, 0)])
  }

  function Merge(w: Work, e: Edge, v: Tree): Work
    requires e in w.links
  {
    var link := w.links[e];
    w.(links := w.links[e := link.(sval := Alt(link.sval, v))],
       ytm := w.ytm + if link.yieldCount > 0 then 1 else 0)
  }

  ghost predicate Ready(pt: ParseTables, w: Work) {
    && ReductionsInRange(pt) && SibsInPool(w.ns) && ProdsOK(pt, w.queue)
    && (forall i :: 0 <= i < |w.tp| ==> w.tp[i] < |w.ns|)
    && (forall r: nat, l: nat :: Linked(w.ns, r, l) ==> (r, l) in w.links)
  }

  datatype Outcome = Dropped | Merged | NewLink | NewNode

  /** Which of the things that can happen to a reduction to `b` at `l` does happen. */
  function OutcomeOf(ctx: Context, w: Work, l: nat, b: nat): Outcome
    requires l < |w.ns| && (w.ns[l].state, b) in ctx.pt.goto
    requires forall i :: 0 <= i < |w.tp| ==> w.tp[i] < |w.ns|
  {
    var s := ctx.pt.goto[(w.ns[l].state, b)];
    match FindTop(w.ns, w.tp, s)
    case None => NewNode
    case Some(r) =>
      if l !in w.ns[r].sibs then NewLink
      else if ActionEntry(ctx.pt, s, ctx.token) == Error then Dropped
      else Merged
  }

  /** Shift the reduced nonterminal `b` with value `v` onto node `l`, and enqueue what this enables. */
  function ShiftNonterminal(ctx: Context, w: Work, l: nat, b: nat, v: Tree): Work
    requires Ready(ctx.pt, w) && l < |w.ns| && (w.ns[l].state, b) in ctx.pt.goto
  {
    var s := ctx.pt.goto[(w.ns[l].state, b)];
    match OutcomeOf(ctx, w, l, b)
    case Dropped => w
    case Merged => Merge(w, (FindTop(w.ns, w.tp, s).value, l), v)
    case NewLink =>
      var r := FindTop(w.ns, w.tp, s).value;
      var w' := Link(w, r, l, v);
      w'.(queue := InsertAll(ctx.pt, w.queue, EnqueuedAll(ctx.pt, ctx.token, w'.ns, w.tp, Some((r, l)))))
    case NewNode =>
      var w' := Push(ctx, w, l, s, v);
      w'.(queue := InsertAll(ctx.pt, w.queue, EnqueuedAll(ctx.pt, ctx.token, w'.ns, [|w.ns|], None)))
  }

  /** Dequeue the best path, yield its values, and shift the result unless the user cancels it. */
  function Step(ctx: Context, w: Work): Work
    requires Ready(ctx.pt, w) && w.queue != [] && CanProcess(ctx, w, w.queue[0])
  {
    var p := w.queue[0];
    var v := Node(p.prod, ValuesOf(w.links, p.chain));
    var w' := w.(queue := w.queue[1..], links := YieldLinks(w.links, p.chain));
    YieldKeepsLinks(w.links, p.chain);
    if ctx.keep(LhsOf(ctx.pt, p.prod), v) then ShiftNonterminal(ctx, w', p.chain[0], LhsOf(ctx.pt, p.prod), v) else w'
  }

  ghost predicate CanProcess(ctx: Context, w: Work, p: Path) {
    && p.prod < |ctx.pt.prods| && p.chain != [] && p.chain[0] < |w.ns|
    && (w.ns[p.chain[0]].state, LhsOf(ctx.pt, p.prod)) in ctx.pt.goto
  }

  /** Yielding changes counts only, and only those of the links on the path. */
  lemma {:induction false} YieldKeepsLinks(links: Links, chain: seq<nat>)
    ensures YieldLinks(links, chain).Keys == links.Keys
    ensures forall e :: e in links ==> YieldLinks(links, chain)[e].sval == links[e].sval
    ensures forall e :: e in links ==>
              (YieldLinks(links, chain)[e].yieldCount > 0 <==> links[e].yieldCount > 0 || Uses(chain, e))
  {
    if |chain| > 1 {
      var e0 := (chain[1], chain[0]);
      YieldKeepsLinks(links, chain[1..]);
      forall e | e in links ensures Uses(chain, e) <==> Uses(chain[1..], e) || e == e0 {
        if Uses(chain[1..], e) {
          var i, j :| 0 <= i < j < |chain[1..]| && j == i + 1 && chain[1..][j] == e.0 && chain[1..][i] == e.1;
          assert chain[j + 1] == e.0 && chain[i + 1] == e.1;
        }
        if Uses(chain, e) && e != e0 {
          var i, j :| 0 <= i < j < |chain| && j == i + 1 && chain[j] == e.0 && chain[i] == e.1;
          assert chain[1..][j - 1] == e.0 && chain[1..][i - 1] == e.1;
        }
        if e == e0 {
          assert chain[1] == e.0 && chain[0] == e.1;
        }
      }
    }
  }
}
