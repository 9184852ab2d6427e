/** `determinDepth`: how many nodes can be popped before the stack becomes nondeterministic. */
module DeterminDepth {
  import opened Grammars
  import opened LrMachine
  import opened Gss

  /** The depth a node ought to have: 1 at the bottom, one more than its only sibling, else 0. */
  ghost function Depth(ns: Pool, u: nat): nat
    decreases u
  {
    if u >= |ns| || ns[u].sibs == [] then 1
    else if |ns[u].sibs| == 1 && ns[u].sibs[0] < u then Depth(ns, ns[u].sibs[0]) + 1
    else 0
  }

  ghost predicate DepthOK(ns: Pool, depth: seq<nat>) {
    |depth| == |ns| && forall u :: 0 <= u < |ns| ==> depth[u] == Depth(ns, u)
  }

  /** What the parser recomputes, from the depth stored in the sibling. */
  function LocalDepth(ns: Pool, depth: seq<nat>, u: nat): nat
    requires u < |ns| && SibsInPool(ns) && |depth| == |ns|
  {
    if ns[u].sibs == [] then 1
    else if |ns[u].sibs| == 1 then depth[ns[u].sibs[0]] + 1
    else 0
  }

  /** A node's depth does not depend on nodes that nothing on its left refers to. */
  lemma {:induction false} DepthOfOld(pt: ParseTables, ns: Pool, ns': Pool, tp: seq<nat>, u: nat)
    requires GraphOK(pt, ns) && |ns| <= |ns'| && u < |ns| && u !in tp
    requires forall x: nat :: x < |ns| && x !in tp ==> ns'[x].sibs == ns[x].sibs
    requires forall x: nat, y: nat :: FrontierClosed(ns, tp, x, y)
    ensures Depth(ns', u) == Depth(ns, u)
    decreases u
  {
    assert NodeOK(pt, ns, u);
    if |ns[u].sibs| == 1 {
      assert Linked(ns, u, ns[u].sibs[0]) && FrontierClosed(ns, tp, u, ns[u].sibs[0]);
      DepthOfOld(pt, ns, ns', tp, ns[u].sibs[0]);
    }
  }

  /** If nothing links to `r`, changing its links changes no other depth. */
  lemma {:induction false} DepthOfOthers(pt: ParseTables, ns: Pool, ns': Pool, r: nat, u: nat)
    requires GraphOK(pt, ns) && |ns| <= |ns'| && u < |ns| && u != r
    requires forall x: nat :: x < |ns| && x != r ==> ns'[x].sibs == ns[x].sibs
    requires forall x: nat :: !Linked(ns, x, r)
    ensures Depth(ns', u) == Depth(ns, u)
    decreases u
  {
    assert NodeOK(pt, ns, u);
    if |ns[u].sibs| == 1 {
      assert Linked(ns, u, ns[u].sibs[0]);
      DepthOfOthers(pt, ns, ns', r, ns[u].sibs[0]);
    }
  }

  /** The nodes met by following `k` first links from `u`, left to right. */
  function FirstChain(ns: Pool, u: nat, k: nat): seq<nat>
    requires u < |ns| && SibsInPool(ns)
    decreases k
  {
    if k == 0 || ns[u].sibs == [] then [u] else FirstChain(ns, ns[u].sibs[0], k - 1) + [u]
  }

  /** Within the depth of a node there is only one path to pop: the one along first links. */
  lemma {:induction false} ShallowPathIsUnique(pt: ParseTables, ns: Pool, u: nat, k: nat, path: seq<nat>)
    requires GraphOK(pt, ns) && u < |ns| && k <= Depth(ns, u)
    requires IsPath(ns, path) && Last(path) == u && |path| == k + 1
    ensures path == FirstChain(ns, u, k)
    decreases k
  {
    if k > 0 {
      assert NodeOK(pt, ns, u);
      var v := path[k - 1];
      assert Linked(ns, u, v);
      assert ns[u].sibs == [v];
      SubPath(ns, path, 0, k);
      assert path[0..k] == path[..k];
      ShallowPathIsUnique(pt, ns, v, k - 1, path[..k]);
      assert path == path[..k] + [u];
    }
  }

  ghost predicate PathInto(ns: Pool, path: seq<nat>, u: nat, k: nat) {
    |path| == k + 1 && IsPath(ns, path) && Last(path) == u
  }

  /** No greater depth would do: one link further there are two paths, unless the bottom is in between. */
  lemma {:induction false} DeeperIsAmbiguous(pt: ParseTables, ns: Pool, u: nat) returns (p1: seq<nat>, p2: seq<nat>)
    requires GraphOK(pt, ns) && u < |ns|
    ensures var d := Depth(ns, u);
            || (p1 != p2 && PathInto(ns, p1, u, d + 1) && PathInto(ns, p2, u, d + 1))
            || (p1 == p2 && d > 0 && PathInto(ns, p1, u, d - 1) && p1[0] == 0)
    decreases u
  {
    assert NodeOK(pt, ns, u);
    if ns[u].sibs == [] {
      p1, p2 := [u], [u];
    } else if |ns[u].sibs| == 1 {
      var v := ns[u].sibs[0];
      p1, p2 := DeeperIsAmbiguous(pt, ns, v);
      OneLinkMore(ns, p1, v, u);
      OneLinkMore(ns, p2, v, u);
      assert p1 != p2 ==> (p1 + [u])[..|p1|] != (p2 + [u])[..|p2|];
      p1, p2 := p1 + [u], p2 + [u];
    } else {
      var v1, v2 := ns[u].sibs[0], ns[u].sibs[1];
      OneLinkMore(ns, [v1], v1, u);
      OneLinkMore(ns, [v2], v2, u);
      p1, p2 := [v1] + [u], [v2] + [u];
      assert p1[0] != p2[0];
    }
  }

  lemma OneLinkMore(ns: Pool, path: seq<nat>, v: nat, u: nat)
    requires IsPath(ns, path) && Last(path) == v && Linked(ns, u, v)
    ensures IsPath(ns, path + [u]) && (path + [u])[0] == path[0]
  {
  }

  lemma {:induction false} FirstChainIsPath(pt: ParseTables, ns: Pool, u: nat, k: nat)
    requires GraphOK(pt, ns) && u < |ns|
    ensures IsPath(ns, FirstChain(ns, u, k)) && Last(FirstChain(ns, u, k)) == u
    ensures |FirstChain(ns, u, k)| <= k + 1
    ensures |FirstChain(ns, u, k)| < k + 1 ==> FirstChain(ns, u, k)[0] == 0
    decreases k
  {
    assert NodeOK(pt, ns, u);
    if k > 0 && ns[u].sibs != [] {
      FirstChainIsPath(pt, ns, ns[u].sibs[0], k - 1);
      JoinPaths(ns, FirstChain(ns, ns[u].sibs[0], k - 1), [ns[u].sibs[0], u]);
      assert [ns[u].sibs[0], u][1..] == [u];
    }
  }

  // ---------------------------------------------------------------- repair

  /** One sweep over the frontier in order repairs every node of it. */
  method Sweep(ns: Pool, tp: seq<nat>, depth: seq<nat>, ghost pt: ParseTables) returns (depth': seq<nat>, changes: nat)
    requires GraphOK(pt, ns) && |depth| == |ns|
    requires (forall i :: 0 <= i < |tp| ==> tp[i] < |ns|) && forall i, j :: 0 <= i < j < |tp| ==> tp[i] < tp[j]
    requires forall u :: 0 <= u < |ns| && u !in tp ==> depth[u] == Depth(ns, u)
    ensures DepthOK(ns, depth')
    ensures DepthOK(ns, depth) ==> changes == 0
  {
    depth', changes := depth, 0;
    for i := 0 to |tp|
      invariant |depth'| == |ns|
      invariant forall u :: 0 <= u < |ns| && u !in tp[i..] ==> depth'[u] == Depth(ns, u)
      invariant DepthOK(ns, depth) ==> depth' == depth && changes == 0
    {
      var u := tp[i];
      assert NodeOK(pt, ns, u);
      assert tp[i..] == [u] + tp[i + 1..];
      if |ns[u].sibs| == 1 {
        assert ns[u].sibs[0] !in tp[i..];
      }
      var newDepth := LocalDepth(ns, depth', u);
      assert newDepth == Depth(ns, u);
      if newDepth != depth'[u] {
        changes := changes + 1;
        depth' := depth'[u := newDepth];
      }
    }
  }

  /** Sweep until nothing changes. The frontier is in creation order and first links are older than
      their nodes, so the second sweep at the latest finds nothing to do. */
  method RepairDepths(ns: Pool, tp: seq<nat>, depth: seq<nat>, ghost pt: ParseTables)
      returns (depth': seq<nat>, sweeps: nat)
    requires GraphOK(pt, ns) && |depth| == |ns|
    requires (forall i :: 0 <= i < |tp| ==> tp[i] < |ns|) && forall i, j :: 0 <= i < j < |tp| ==> tp[i] < tp[j]
    requires forall u :: 0 <= u < |ns| && u !in tp ==> depth[u] == Depth(ns, u)
    ensures DepthOK(ns, depth') && 1 <= sweeps <= 2
  {
    depth', sweeps := depth, 0;
    var changes: nat := 1;
    while changes != 0
      invariant |depth'| == |ns|
      invariant forall u :: 0 <= u < |ns| && u !in tp ==> depth'[u] == Depth(ns, u)
      invariant sweeps == 0 ==> changes != 0
      invariant sweeps > 0 ==> DepthOK(ns, depth')
      invariant sweeps <= 2 && (sweeps == 2 ==> changes == 0)
      decreases 2 - sweeps
    {
      depth', changes := Sweep(ns, tp, depth', pt);
      sweeps := sweeps + 1;
    }
  }
}
