/** The graph-structured stack: nodes, sibling links and the paths between them. */
module Gss {
  import opened Grammars
  import opened LrMachine

  /** `sibs` are the nodes this one links to on the left: the embedded first link, then the list. */
  datatype StackNode = StackNode(state: nat, column: nat, sibs: seq<nat>)

  /** A sibling link, named by the node on its right and the node on its left. */
  type Edge = (nat, nat)

  /** Nodes are named by their position in the pool they are allocated from. */
  type Pool = seq<StackNode>

  ghost predicate Linked(ns: Pool, u: nat, v: nat) {
    u < |ns| && v in ns[u].sibs
  }

  ghost predicate Distinct<A>(s: seq<A>) {
    forall i, j :: 0 <= i < j < |s| ==> s[i] != s[j]
  }

  ghost predicate SibsInPool(ns: Pool) {
    forall u: nat, i :: u < |ns| && 0 <= i < |ns[u].sibs| ==> ns[u].sibs[i] < |ns|
  }

  /** Node 0 is the bottom of every stack; any other node's first link is older than the node. */
  ghost predicate NodeOK(pt: ParseTables, ns: Pool, u: nat) {
    u < |ns| ==>
      && Distinct(ns[u].sibs)
      && (u == 0 ==> ns[u].state == START && ns[u].column == 0 && ns[u].sibs == [])
      && (u > 0 ==> ns[u].sibs != [] && ns[u].sibs[0] < u)
      && ns[u].state < pt.numStates
  }

  /** Links follow transitions of the tables and never point to a later column. */
  ghost predicate LinkOK(pt: ParseTables, ns: Pool, u: nat, v: nat) {
    Linked(ns, u, v) ==> v < |ns| && Goes(pt, ns[v].state, ns[u].state) && ns[v].column <= ns[u].column
  }

  ghost predicate GraphOK(pt: ParseTables, ns: Pool) {
    && ns != [] && SibsInPool(ns)
    && (forall u: nat :: NodeOK(pt, ns, u))
    && (forall u: nat, v: nat :: LinkOK(pt, ns, u, v))
  }

  /** The parsers at the frontier: in creation order, one per state, in the current column, and
      nothing outside the frontier links to them. */
  ghost predicate FrontierOK(ns: Pool, tp: seq<nat>, c: nat) {
    && (forall i :: 0 <= i < |tp| ==> tp[i] < |ns| && ns[tp[i]].column == c)
    && (forall i, j :: 0 <= i < j < |tp| ==> tp[i] < tp[j])
    && (forall i, j :: 0 <= i < j < |tp| ==> ns[tp[i]].state != ns[tp[j]].state)
    && (forall u: nat :: u < |ns| ==> ns[u].column <= c)
    && (forall u: nat, v: nat :: FrontierClosed(ns, tp, u, v))
  }

  ghost predicate FrontierClosed(ns: Pool, tp: seq<nat>, u: nat, v: nat) {
    Linked(ns, u, v) && v in tp ==> u in tp
  }

  // ---------------------------------------------------------------- paths

  /** A path from left to right; consecutive nodes are joined by sibling links. */
  ghost predicate IsPath(ns: Pool, path: seq<nat>) {
    && path != []
    && (forall i :: 0 <= i < |path| ==> path[i] < |ns|)
    && (forall i, j :: 0 <= i < j < |path| && j == i + 1 ==> Linked(ns, path[j], path[i]))
  }

  ghost predicate Uses(path: seq<nat>, e: Edge) {
    exists i, j :: 0 <= i < j < |path| && j == i + 1 && path[j] == e.0 && path[i] == e.1
  }

  function StatesOf(ns: Pool, path: seq<nat>): (st: seq<nat>)
    requires forall i :: 0 <= i < |path| ==> path[i] < |ns|
    ensures |st| == |path| && forall i :: 0 <= i < |path| ==> st[i] == ns[path[i]].state
  {
    seq(|path|, i requires 0 <= i < |path| => ns[path[i]].state)
  }

  lemma PathStates(pt: ParseTables, ns: Pool, path: seq<nat>)
    requires GraphOK(pt, ns) && IsPath(ns, path)
    ensures StatePath(pt, StatesOf(ns, path))
  {
    forall i, j | 0 <= i < j < |path| && j == i + 1
      ensures Goes(pt, StatesOf(ns, path)[i], StatesOf(ns, path)[j])
    {
      assert LinkOK(pt, ns, path[j], path[i]);
    }
  }

  lemma SubPath(ns: Pool, path: seq<nat>, i: nat, j: nat)
    requires IsPath(ns, path) && i < j <= |path|
    ensures IsPath(ns, path[i..j])
  {
  }

  lemma JoinPaths(ns: Pool, left: seq<nat>, right: seq<nat>)
    requires IsPath(ns, left) && IsPath(ns, right) && Last(left) == right[0]
    ensures IsPath(ns, left + right[1..])
  {
    var p := left + right[1..];
    forall i, j | 0 <= i < j < |p| && j == i + 1 ensures Linked(ns, p[j], p[i]) {
      if j >= |left| {
        assert p[j] == right[j - |left| + 1] && p[i] == right[i - |left| + 1];
      }
    }
  }

  /** Columns never decrease from left to right along a path. */
  lemma {:induction false} ColumnsGrow(pt: ParseTables, ns: Pool, path: seq<nat>, i: nat, j: nat)
    requires GraphOK(pt, ns) && IsPath(ns, path) && i <= j < |path|
    ensures ns[path[i]].column <= ns[path[j]].column
    decreases j - i
  {
    if i < j {
      assert LinkOK(pt, ns, path[j], path[j - 1]);
      ColumnsGrow(pt, ns, path, i, j - 1);
    }
  }

  /** To the left of a node outside the frontier there is nothing but nodes outside it. */
  lemma {:induction false} LeftOfOld(ns: Pool, tp: seq<nat>, c: nat, path: seq<nat>, i: nat, j: nat)
    requires FrontierOK(ns, tp, c) && IsPath(ns, path) && i <= j < |path| && path[j] !in tp
    ensures path[i] !in tp
    decreases j - i
  {
    if i < j {
      assert FrontierClosed(ns, tp, path[j], path[j - 1]);
      LeftOfOld(ns, tp, c, path, i, j - 1);
    }
  }

  /** Every node has a path from the bottom of the stack. */
  lemma {:induction false} ReachesBottom(pt: ParseTables, ns: Pool, u: nat) returns (path: seq<nat>)
    requires GraphOK(pt, ns) && u < |ns|
    ensures IsPath(ns, path) && path[0] == 0 && Last(path) == u
  {
    assert NodeOK(pt, ns, u);
    if u == 0 {
      path := [0];
    } else {
      var left := ReachesBottom(pt, ns, ns[u].sibs[0]);
      JoinPaths(ns, left, [ns[u].sibs[0], u]);
      path := left + [u];
    }
  }

  /** The stacks spelled by paths from the bottom to the frontier. */
  ghost predicate Spells(ns: Pool, tp: seq<nat>, path: seq<nat>, st: seq<nat>) {
    IsPath(ns, path) && path[0] == 0 && Last(path) in tp && StatesOf(ns, path) == st
  }

  ghost function GssStacks(ns: Pool, tp: seq<nat>): iset<seq<nat>> {
    iset st, path | Spells(ns, tp, path, st) :: st
  }

  // ---------------------------------------------------------------- growing the graph

  /** One link from `l` to `r` is added, where `r` is an existing node or a new one. */
  ghost predicate Grown(ns: Pool, ns': Pool, r: nat, l: nat) {
    && l < |ns| && r < |ns'| && !Linked(ns, r, l)
    && |ns'| == (if r < |ns| then |ns| else r + 1) && r <= |ns|
    && (forall u: nat :: u < |ns| ==> ns'[u].state == ns[u].state && ns'[u].column == ns[u].column)
    && (forall u: nat, v: nat :: Linked(ns', u, v) <==> Linked(ns, u, v) || (u == r && v == l))
  }

  lemma PathStays(ns: Pool, ns': Pool, r: nat, l: nat, path: seq<nat>)
    requires Grown(ns, ns', r, l) && IsPath(ns, path)
    ensures IsPath(ns', path) && !Uses(path, (r, l)) && StatesOf(ns', path) == StatesOf(ns, path)
  {
  }

  lemma PathIsOld(pt: ParseTables, ns: Pool, ns': Pool, r: nat, l: nat, path: seq<nat>)
    requires GraphOK(pt, ns) && Grown(ns, ns', r, l) && IsPath(ns', path) && !Uses(path, (r, l)) && path[0] < |ns|
    ensures IsPath(ns, path)
  {
    forall i, j | 0 <= i < j < |path| && j == i + 1 ensures Linked(ns, path[j], path[i]) {
      assert Linked(ns', path[j], path[i]);
    }
    forall i | 0 <= i < |path| ensures path[i] < |ns| {
      if i > 0 {
        assert Linked(ns, path[i], path[i - 1]);
      }
    }
  }

  // ---------------------------------------------------------------- enumerating paths

  /** All paths of `k` links into `cur`, depth first, extended on the right by `suffix`; when
      `must` is given, only those that use that link. */
  function Enum(ns: Pool, cur: nat, k: nat, must: Option<Edge>, suffix: seq<nat>): seq<seq<nat>>
    requires cur < |ns| && SibsInPool(ns)
    decreases k, 1, 0
  {
    if k == 0 then
      if must.Some? then [] else [[cur] + suffix]
    else
      EnumSibs(ns, cur, k, must, suffix, 0)
  }

  function EnumSibs(ns: Pool, cur: nat, k: nat, must: Option<Edge>, suffix: seq<nat>, i: nat): seq<seq<nat>>
    requires cur < |ns| && k > 0 && i <= |ns[cur].sibs| && SibsInPool(ns)
    decreases k, 0, |ns[cur].sibs| - i
  {
    if i == |ns[cur].sibs| then []
    else
      Enum(ns, ns[cur].sibs[i], k - 1, StillMust(must, cur, ns[cur].sibs[i]), [cur] + suffix)
      + EnumSibs(ns, cur, k, must, suffix, i + 1)
  }

  function StillMust(must: Option<Edge>, right: nat, left: nat): Option<Edge> {
    if must == Some((right, left)) then None else must
  }

  /** What a member of the enumeration is. */
  ghost predicate Enumerated(ns: Pool, cur: nat, k: nat, must: Option<Edge>, suffix: seq<nat>, path: seq<nat>) {
    && |path| == k + 1 + |suffix| && path[k + 1..] == suffix && path[k] == cur
    && IsPath(ns, path[..k + 1])
    && (must.Some? ==> Uses(path[..k + 1], must.value))
  }

  /** The search with a required link finds exactly the paths of that length that contain it. */
  lemma {:induction false} EnumExact(ns: Pool, cur: nat, k: nat, must: Option<Edge>, suffix: seq<nat>, path: seq<nat>)
    requires cur < |ns| && SibsInPool(ns)
    ensures path in Enum(ns, cur, k, must, suffix) <==> Enumerated(ns, cur, k, must, suffix, path)
    decreases k, 1, 0
  {
    if k == 0 {
      if path == [cur] + suffix {
        assert path[..1] == [cur];
      }
      if Enumerated(ns, cur, k, must, suffix, path) {
        assert path == [cur] + suffix;
      }
    } else {
      EnumSibsExact(ns, cur, k, must, suffix, 0, path);
      if Enumerated(ns, cur, k, must, suffix, path) {
        assert Linked(ns, path[..k + 1][k], path[..k + 1][k - 1]);
      }
    }
  }

  lemma {:induction false} EnumSibsExact(ns: Pool, cur: nat, k: nat, must: Option<Edge>, suffix: seq<nat>, i: nat,
                                         path: seq<nat>)
    requires cur < |ns| && k > 0 && i <= |ns[cur].sibs| && SibsInPool(ns)
    ensures path in EnumSibs(ns, cur, k, must, suffix, i) <==>
            Enumerated(ns, cur, k, must, suffix, path) && path[k - 1] in ns[cur].sibs[i..]
    decreases k, 0, |ns[cur].sibs| - i
  {
    if i < |ns[cur].sibs| {
      var left := ns[cur].sibs[i];
      EnumExact(ns, left, k - 1, StillMust(must, cur, left), [cur] + suffix, path);
      EnumSibsExact(ns, cur, k, must, suffix, i + 1, path);
      StepEnumerated(ns, cur, left, k, must, suffix, path);
      assert ns[cur].sibs[i..] == [left] + ns[cur].sibs[i + 1..];
    }
  }

  lemma StepEnumerated(ns: Pool, cur: nat, left: nat, k: nat, must: Option<Edge>, suffix: seq<nat>, path: seq<nat>)
    requires k > 0 && cur < |ns| && left < |ns| && left in ns[cur].sibs
    ensures Enumerated(ns, left, k - 1, StillMust(must, cur, left), [cur] + suffix, path) <==>
            Enumerated(ns, cur, k, must, suffix, path) && path[k - 1] == left
  {
    if Enumerated(ns, left, k - 1, StillMust(must, cur, left), [cur] + suffix, path) {
      EnumeratedLonger(ns, cur, left, k, must, suffix, path);
    }
    if Enumerated(ns, cur, k, must, suffix, path) && path[k - 1] == left {
      EnumeratedShorter(ns, cur, left, k, must, suffix, path);
    }
  }

  lemma EnumeratedLonger(ns: Pool, cur: nat, left: nat, k: nat, must: Option<Edge>, suffix: seq<nat>, path: seq<nat>)
    requires k > 0 && cur < |ns| && left < |ns| && left in ns[cur].sibs
    requires Enumerated(ns, left, k - 1, StillMust(must, cur, left), [cur] + suffix, path)
    ensures Enumerated(ns, cur, k, must, suffix, path) && path[k - 1] == left
  {
    assert path[k..][0] == cur && path[k..][1..] == suffix;
    var short, long := path[..k], path[..k + 1];
    assert long == short + [cur];
    forall i, j | 0 <= i < j < |long| && j == i + 1 ensures Linked(ns, long[j], long[i]) {
      assert j < k ==> Linked(ns, short[j], short[i]);
    }
    if must.Some? {
      if StillMust(must, cur, left).None? {
        assert long[k] == must.value.0 && long[k - 1] == must.value.1;
      } else {
        var i, j :| 0 <= i < j < |short| && j == i + 1 && short[j] == must.value.0 && short[i] == must.value.1;
        assert long[j] == must.value.0 && long[i] == must.value.1;
      }
    }
  }

  lemma EnumeratedShorter(ns: Pool, cur: nat, left: nat, k: nat, must: Option<Edge>, suffix: seq<nat>, path: seq<nat>)
    requires k > 0 && cur < |ns| && left < |ns| && left in ns[cur].sibs
    requires Enumerated(ns, cur, k, must, suffix, path) && path[k - 1] == left
    ensures Enumerated(ns, left, k - 1, StillMust(must, cur, left), [cur] + suffix, path)
  {
    var short, long := path[..k], path[..k + 1];
    assert path[k..] == [cur] + suffix;
    assert short == long[..k];
    SubPath(ns, long, 0, k);
    if StillMust(must, cur, left).Some? {
      var i, j :| 0 <= i < j < |long| && j == i + 1 && long[j] == must.value.0 && long[i] == must.value.1;
      assert j < k;
      assert short[j] == must.value.0 && short[i] == must.value.1;
    }
  }

  /** No path is listed twice. */
  lemma {:induction false} EnumDistinct(ns: Pool, cur: nat, k: nat, must: Option<Edge>, suffix: seq<nat>)
    requires cur < |ns| && SibsInPool(ns) && forall u: nat :: u < |ns| ==> Distinct(ns[u].sibs)
    ensures Distinct(Enum(ns, cur, k, must, suffix))
    decreases k, 1, 0
  {
    if k > 0 {
      EnumSibsDistinct(ns, cur, k, must, suffix, 0);
    }
  }

  lemma {:induction false} EnumSibsDistinct(ns: Pool, cur: nat, k: nat, must: Option<Edge>, suffix: seq<nat>, i: nat)
    requires cur < |ns| && k > 0 && i <= |ns[cur].sibs| && SibsInPool(ns)
    requires forall u: nat :: u < |ns| ==> Distinct(ns[u].sibs)
    ensures Distinct(EnumSibs(ns, cur, k, must, suffix, i))
    decreases k, 0, |ns[cur].sibs| - i
  {
    if i < |ns[cur].sibs| {
      var left := ns[cur].sibs[i];
      var must' := StillMust(must, cur, left);
      EnumDistinct(ns, left, k - 1, must', [cur] + suffix);
      EnumSibsDistinct(ns, cur, k, must, suffix, i + 1);
      var first := Enum(ns, left, k - 1, must', [cur] + suffix);
      var rest := EnumSibs(ns, cur, k, must, suffix, i + 1);
      forall x | x in first ensures x !in rest {
        EnumExact(ns, left, k - 1, must', [cur] + suffix, x);
        EnumSibsExact(ns, cur, k, must, suffix, i + 1, x);
      }
      ConcatDistinct(first, rest);
    }
  }

  lemma ConcatDistinct<A>(a: seq<A>, b: seq<A>)
    requires Distinct(a) && Distinct(b) && forall x :: x in a ==> x !in b
    ensures Distinct(a + b)
  {
    forall i, j | 0 <= i < j < |a + b| ensures (a + b)[i] != (a + b)[j] {
      if i < |a| <= j {
        assert (a + b)[i] in a && (a + b)[j] in b;
      }
    }
  }
}
