/** The end of a token: every frontier parser that can shifts it. */
module ShiftPhase {
  import opened Grammars
  import opened LrMachine
  import opened Gss
  import opened PathQueue
  import opened Worklist
  import opened ExactlyOnce
  import opened Derivations
  import opened Stacks
  import opened YieldThenMerge

  ghost function Members(s: seq<nat>): set<nat> {
    set v | v in s
  }

  function ShiftOf(ctx: Context, ns: Pool, v: nat): Option<nat>
    requires v < |ns|
  {
    ShiftDest(ActionEntry(ctx.pt, ns[v].state, ctx.token))
  }

  /** A link from a new node to an old one is the shift of `v`. */
  ghost predicate IsShiftLink(ctx: Context, w: Work, from: set<nat>, w': Work, u: nat, v: nat) {
    u >= |w.ns| ==>
      (Linked(w'.ns, u, v) <==> u < |w'.ns| && v in from && v < |w.ns| && ShiftOf(ctx, w.ns, v) == Some(w'.ns[u].state))
  }

  /** `w'` is `w` after the parsers in `from` have shifted. */
  ghost predicate ShiftedFrom(ctx: Context, w: Work, from: set<nat>, w': Work) {
    && |w.ns| <= |w'.ns| && w'.ns[..|w.ns|] == w.ns
    && w'.tp == seq(|w'.ns| - |w.ns|, i requires 0 <= i => |w.ns| + i)
    && (forall u: nat :: |w.ns| <= u < |w'.ns| ==> NewTop(ctx, w'.ns, u))
    && (forall u: nat, v: nat :: |w.ns| <= u < v < |w'.ns| ==> w'.ns[u].state != w'.ns[v].state)
    && (forall u: nat, v: nat :: IsShiftLink(ctx, w, from, w', u, v))
    && (forall v :: v in from && v < |w.ns| && ShiftOf(ctx, w.ns, v).Some? ==>
              HasState(w'.ns, |w.ns|, ShiftOf(ctx, w.ns, v).value))
    && w'.queue == w.queue && w'.ytm == w.ytm
    && (forall e: Edge :: e in w'.links <==> e in w.links || (e.0 >= |w.ns| && Linked(w'.ns, e.0, e.1)))
    && (forall e: Edge :: e in w'.links ==>
          w'.links[e] == if e in w.links then w.links[e] else SiblingLink(Leaf(ctx.token), 0))
  }

  ghost predicate NewTop(ctx: Context, ns: Pool, u: nat) {
    u < |ns| && ns[u].column == ctx.column + 1 && ns[u].sibs != [] && Distinct(ns[u].sibs)
  }

  ghost predicate HasState(ns: Pool, n: nat, s: nat) {
    exists u: nat :: n <= u < |ns| && ns[u].state == s
  }

  /** The frontier after the shift: fresh nodes in the next column with nothing above them. */
  lemma FrontierAfterShift(ctx: Context, w: Work, from: set<nat>, w': Work)
    requires Shape(ctx, w) && (forall v :: v in from ==> v < |w.ns|) && ShiftedFrom(ctx, w, from, w')
    ensures Shape(ctx.(column := ctx.column + 1), w') && NoneAbove(w'.ns, w'.tp) && NothingYielded(w')
  {
    forall u: nat, v: nat ensures Linked(w'.ns, u, v) ==> v < |w.ns| && (u < |w.ns| ==> Linked(w.ns, u, v)) {
      assert IsShiftLink(ctx, w, from, w', u, v);
      if u < |w.ns| {
        assert w'.ns[u] == w.ns[u];
        assert LinkOK(ctx.pt, w.ns, u, v);
      }
    }
    forall u: nat, v: nat ensures LinkOK(ctx.pt, w'.ns, u, v) {
      assert IsShiftLink(ctx, w, from, w', u, v) && LinkOK(ctx.pt, w.ns, u, v);
      if u >= |w.ns| && Linked(w'.ns, u, v) {
        assert ShiftValid(ctx.pt, w.ns[v].state, ctx.token) && NewTop(ctx, w'.ns, u);
        assert w'.ns[v] == w.ns[v];
      } else if Linked(w'.ns, u, v) {
        assert w'.ns[u] == w.ns[u] && w'.ns[v] == w.ns[v];
      }
    }
    forall u: nat ensures NodeOK(ctx.pt, w'.ns, u) {
      NewNodeOK(ctx, w, from, w', u);
    }
    forall u: nat, i | u < |w'.ns| && 0 <= i < |w'.ns[u].sibs| ensures w'.ns[u].sibs[i] < |w'.ns| {
      assert Linked(w'.ns, u, w'.ns[u].sibs[i]);
    }
    forall u: nat, v: nat ensures FrontierClosed(w'.ns, w'.tp, u, v) {
    }
    forall r: nat, l: nat ensures Linked(w'.ns, r, l) <==> (r, l) in w'.links {
      if r < |w.ns| {
        assert w'.ns[r] == w.ns[r];
      } else {
        assert Linked(w.ns, r, l) <==> (r, l) in w.links;
      }
    }
    assert NothingYielded(w') by {
      forall e | e in w'.links && e.0 in w'.tp ensures w'.links[e].yieldCount == 0 {
        assert Linked(w.ns, e.0, e.1) <==> e in w.links;
      }
    }
    forall u: nat | u < |w'.ns| ensures w'.ns[u].column <= ctx.column + 1 {
      if u < |w.ns| {
        assert w'.ns[u] == w.ns[u];
      } else {
        assert NewTop(ctx, w'.ns, u);
      }
    }
    forall i | 0 <= i < |w'.tp| ensures w'.ns[w'.tp[i]].column == ctx.column + 1 {
      assert NewTop(ctx, w'.ns, w'.tp[i]);
    }
  }

  lemma NewNodeOK(ctx: Context, w: Work, from: set<nat>, w': Work, u: nat)
    requires Shape(ctx, w) && ShiftedFrom(ctx, w, from, w') && (forall v :: v in from ==> v < |w.ns|)
    ensures NodeOK(ctx.pt, w'.ns, u)
  {
    if u < |w.ns| {
      assert w'.ns[u] == w.ns[u];
      assert NodeOK(ctx.pt, w.ns, u);
    } else if u < |w'.ns| {
      assert NewTop(ctx, w'.ns, u);
      var v := w'.ns[u].sibs[0];
      assert Linked(w'.ns, u, v) && IsShiftLink(ctx, w, from, w', u, v);
      assert ShiftValid(ctx.pt, w.ns[v].state, ctx.token);
    }
  }

  /** Shifting turns the stacks of the frontier into the machine's shifted stacks, no more and no less. */
  lemma ShiftStacks(ctx: Context, w: Work, w': Work)
    requires Shape(ctx, w) && ShiftedFrom(ctx, w, Members(w.tp), w')
    ensures GssStacks(w'.ns, w'.tp) == Shifted(ctx.pt, ctx.token, GssStacks(w.ns, w.tp))
  {
    var from := Members(w.tp);
    FrontierAfterShift(ctx, w, from, w');
    forall st, path: seq<nat> | Spells(w'.ns, w'.tp, path, st)
      ensures st in Shifted(ctx.pt, ctx.token, GssStacks(w.ns, w.tp))
    {
      UnshiftPath(ctx, w, w', path, st);
    }
    forall st | st in GssStacks(w.ns, w.tp) && st != [] && ShiftDest(ActionEntry(ctx.pt, Last(st), ctx.token)).Some?
      ensures st + [ShiftDest(ActionEntry(ctx.pt, Last(st), ctx.token)).value] in GssStacks(w'.ns, w'.tp)
    {
      var path: seq<nat> :| Spells(w.ns, w.tp, path, st);
      ShiftPath(ctx, w, w', path, st);
    }
  }

  lemma UnshiftPath(ctx: Context, w: Work, w': Work, path: seq<nat>, st: seq<nat>)
    requires Shape(ctx, w) && ShiftedFrom(ctx, w, Members(w.tp), w') && Spells(w'.ns, w'.tp, path, st)
    requires NoneAbove(w'.ns, w'.tp)
    ensures st in Shifted(ctx.pt, ctx.token, GssStacks(w.ns, w.tp))
  {
    var k := |path| - 1;
    var i :| 0 <= i < |w'.tp| && w'.tp[i] == path[k];
    assert k > 0;
    var u, v := path[k], path[k - 1];
    assert Linked(w'.ns, u, v) && IsShiftLink(ctx, w, Members(w.tp), w', u, v);
    var left := path[..k];
    OldPath(ctx, w, w', left);
    assert StatesOf(w.ns, left) == st[..k];
    assert Spells(w.ns, w.tp, left, st[..k]);
    var before := st[..k];
    assert before in GssStacks(w.ns, w.tp) && Last(before) == w.ns[v].state;
    assert ShiftDest(ActionEntry(ctx.pt, Last(before), ctx.token)) == Some(w'.ns[u].state);
    assert st == before + [w'.ns[u].state];
  }

  lemma {:induction false} OldPath(ctx: Context, w: Work, w': Work, path: seq<nat>)
    requires Shape(ctx, w) && |w.ns| <= |w'.ns| && w'.ns[..|w.ns|] == w.ns
    requires path != [] && Last(path) < |w.ns| && forall i :: 0 <= i < |path| ==> path[i] < |w'.ns|
    requires forall i, j :: 0 <= i < j < |path| && j == i + 1 ==> Linked(w'.ns, path[j], path[i])
    ensures IsPath(w.ns, path) && (forall i :: 0 <= i < |path| ==> w'.ns[path[i]] == w.ns[path[i]])
    decreases |path|
  {
    var k := |path| - 1;
    assert w'.ns[path[k]] == w.ns[path[k]];
    if k > 0 {
      assert Linked(w'.ns, path[k], path[k - 1]);
      assert LinkOK(ctx.pt, w.ns, path[k], path[k - 1]);
      OldPath(ctx, w, w', path[..k]);
      forall i, j | 0 <= i < j < |path| && j == i + 1 ensures Linked(w.ns, path[j], path[i]) {
        if j < k {
          assert Linked(w.ns, path[..k][j], path[..k][i]);
        }
      }
    }
  }

  lemma ShiftPath(ctx: Context, w: Work, w': Work, path: seq<nat>, st: seq<nat>)
    requires Shape(ctx, w) && ShiftedFrom(ctx, w, Members(w.tp), w') && Spells(w.ns, w.tp, path, st)
    requires ShiftDest(ActionEntry(ctx.pt, Last(st), ctx.token)).Some?
    ensures st + [ShiftDest(ActionEntry(ctx.pt, Last(st), ctx.token)).value] in GssStacks(w'.ns, w'.tp)
  {
    var v, d := Last(path), ShiftDest(ActionEntry(ctx.pt, Last(st), ctx.token)).value;
    assert ShiftOf(ctx, w.ns, v) == Some(d);
    assert v in Members(w.tp);
    var u: nat :| |w.ns| <= u < |w'.ns| && w'.ns[u].state == d;
    assert IsShiftLink(ctx, w, Members(w.tp), w', u, v);
    forall i | 0 <= i < |path| ensures w'.ns[path[i]] == w.ns[path[i]] {
    }
    forall i, j | 0 <= i < j < |path| && j == i + 1 ensures Linked(w'.ns, path[j], path[i]) {
      assert Linked(w.ns, path[j], path[i]);
    }
    assert w'.tp[u - |w.ns|] == u;
    assert Spells(w'.ns, w'.tp, path + [u], st + [d]);
  }

  /** Shifted links derive the token itself. */
  lemma ShiftDerives(g: Grammar, input: seq<nat>, ctx: Context, w: Work, w': Work)
    requires Shape(ctx, w) && ShiftedFrom(ctx, w, Members(w.tp), w')
    requires ctx.column < |input| && input[ctx.column] == ctx.token
    requires LinksDerive(g, input, ctx.pt, w.ns, w.links)
    ensures LinksDerive(g, input, ctx.pt, w'.ns, w'.links)
  {
    forall r: nat, l: nat ensures LinkDerives(g, input, ctx.pt, w'.ns, w'.links, r, l) {
      assert LinkDerives(g, input, ctx.pt, w.ns, w.links, r, l);
      assert (r, l) in w.links ==> Linked(w.ns, r, l) && LinkOK(ctx.pt, w.ns, r, l);
      if (r, l) in w'.links && (r, l) !in w.links {
        assert IsShiftLink(ctx, w, Members(w.tp), w', r, l);
        assert NewTop(ctx, w'.ns, r);
        assert ShiftValid(ctx.pt, w.ns[l].state, ctx.token);
        assert w'.ns[l] == w.ns[l];
        assert input[ctx.column..ctx.column + 1] == [ctx.token];
      }
    }
  }

  // ---------------------------------------------------------------- one parser at a time

  ghost predicate LinksInPool(w: Work) {
    forall e: Edge :: e in w.links ==> e.0 < |w.ns|
  }

  lemma ShapeLinksInPool(ctx: Context, w: Work)
    requires Shape(ctx, w)
    ensures LinksInPool(w)
  {
    forall e: Edge | e in w.links ensures e.0 < |w.ns| {
      assert Linked(w.ns, e.0, e.1);
    }
  }

  lemma ShiftNone(ctx: Context, w: Work)
    requires Shape(ctx, w)
    ensures ShiftedFrom(ctx, w, {}, w.(tp := []))
  {
  }

  /** A parser without a shift contributes nothing. */
  lemma SkipShift(ctx: Context, w: Work, from: set<nat>, w1: Work, v: nat)
    requires LinksInPool(w) && ShiftedFrom(ctx, w, from, w1) && v < |w.ns| && ShiftOf(ctx, w.ns, v) == None
    ensures ShiftedFrom(ctx, w, from + {v}, w1)
  {
    forall u: nat, x: nat ensures IsShiftLink(ctx, w, from + {v}, w1, u, x) {
      assert IsShiftLink(ctx, w, from, w1, u, x);
    }
  }

  /** A parser that shifts to a state not yet on the new frontier gets a new node. */
  lemma ShiftToNew(ctx: Context, w: Work, from: set<nat>, w1: Work, v: nat, d: nat)
    requires LinksInPool(w) && ShiftedFrom(ctx, w, from, w1) && v < |w.ns| && ShiftOf(ctx, w.ns, v) == Some(d)
    requires forall u :: u in w1.tp ==> w1.ns[u].state != d
    ensures ShiftedFrom(ctx, w, from + {v}, Push(ctx.(column := ctx.column + 1), w1, v, d, Leaf(ctx.token)))
  {
    var n, w2 := |w1.ns|, Push(ctx.(column := ctx.column + 1), w1, v, d, Leaf(ctx.token));
    forall u: nat | |w.ns| <= u < n ensures w1.ns[u].state != d {
      assert w1.tp[u - |w.ns|] == u;
    }
    forall u: nat | |w.ns| <= u < |w2.ns| ensures NewTop(ctx, w2.ns, u) {
      if u < n {
        assert NewTop(ctx, w1.ns, u);
      }
    }
    forall u: nat, x: nat ensures Linked(w2.ns, u, x) <==> Linked(w1.ns, u, x) || (u == n && x == v) {
    }
    OneMoreShift(ctx, w, from, w1, v, n, w2);
  }

  /** A parser that shifts to a state already there adds a link to that node. */
  lemma ShiftToOld(ctx: Context, w: Work, from: set<nat>, w1: Work, v: nat, u0: nat)
    requires LinksInPool(w) && ShiftedFrom(ctx, w, from, w1) && v < |w.ns| && v !in from && u0 < |w1.ns| && u0 in w1.tp
    requires ShiftOf(ctx, w.ns, v) == Some(w1.ns[u0].state)
    ensures !Linked(w1.ns, u0, v) && ShiftedFrom(ctx, w, from + {v}, Link(w1, u0, v, Leaf(ctx.token)))
  {
    var w2 := Link(w1, u0, v, Leaf(ctx.token));
    var i :| 0 <= i < |w1.tp| && w1.tp[i] == u0;
    assert u0 >= |w.ns| && NewTop(ctx, w1.ns, u0) && IsShiftLink(ctx, w, from, w1, u0, v);
    var sibs := w1.ns[u0].sibs;
    assert sibs == [sibs[0]] + sibs[1..];
    forall u: nat, x: nat ensures Linked(w2.ns, u, x) <==> Linked(w1.ns, u, x) || (u == u0 && x == v) {
    }
    forall u: nat | |w.ns| <= u < |w2.ns| ensures NewTop(ctx, w2.ns, u) {
      assert NewTop(ctx, w1.ns, u);
    }
    OneMoreShift(ctx, w, from, w1, v, u0, w2);
  }

  /** The shift of `v` to node `u0` added to what was shifted before. */
  lemma OneMoreShift(ctx: Context, w: Work, from: set<nat>, w1: Work, v: nat, u0: nat, w2: Work)
    requires LinksInPool(w) && ShiftedFrom(ctx, w, from, w1) && v < |w.ns|
    requires |w.ns| <= u0 < |w2.ns| && ShiftOf(ctx, w.ns, v) == Some(w2.ns[u0].state)
    requires |w1.ns| <= |w2.ns| && forall u :: 0 <= u < |w1.ns| ==> w2.ns[u].state == w1.ns[u].state
    requires u0 <= |w1.ns| && |w2.ns| == if u0 == |w1.ns| then u0 + 1 else |w1.ns|
    requires forall u :: |w.ns| <= u < |w2.ns| && u != u0 ==> w2.ns[u].state != w2.ns[u0].state
    requires forall u: nat, x: nat :: Linked(w2.ns, u, x) <==> Linked(w1.ns, u, x) || (u == u0 && x == v)
    requires w2.links == w1.links[(u0, v) := SiblingLink(Leaf(ctx.token), 0)]
    ensures forall u: nat, x: nat :: IsShiftLink(ctx, w, from + {v}, w2, u, x)
    ensures forall x :: x in from + {v} && x < |w.ns| && ShiftOf(ctx, w.ns, x).Some? ==>
              HasState(w2.ns, |w.ns|, ShiftOf(ctx, w.ns, x).value)
    ensures forall e: Edge :: e in w2.links <==> e in w.links || (e.0 >= |w.ns| && Linked(w2.ns, e.0, e.1))
    ensures forall e: Edge :: e in w2.links ==>
              w2.links[e] == if e in w.links then w.links[e] else SiblingLink(Leaf(ctx.token), 0)
  {
    forall u: nat, x: nat ensures IsShiftLink(ctx, w, from + {v}, w2, u, x) {
      assert IsShiftLink(ctx, w, from, w1, u, x);
    }
    forall x | x in from + {v} && x < |w.ns| && ShiftOf(ctx, w.ns, x).Some?
      ensures HasState(w2.ns, |w.ns|, ShiftOf(ctx, w.ns, x).value)
    {
      if x == v {
        assert w2.ns[u0].state == ShiftOf(ctx, w.ns, x).value;
      } else {
        var u: nat :| |w.ns| <= u < |w1.ns| && w1.ns[u].state == ShiftOf(ctx, w.ns, x).value;
        assert w2.ns[u].state == w1.ns[u].state;
      }
    }
    forall e: Edge ensures e in w2.links <==> e in w.links || (e.0 >= |w.ns| && Linked(w2.ns, e.0, e.1)) {
      assert e in w1.links <==> e in w.links || (e.0 >= |w.ns| && Linked(w1.ns, e.0, e.1));
    }
  }
}
