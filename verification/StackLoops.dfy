/** Reducing on one stack, one action at a time: when that goes on forever. */
module StackLoops {
  import opened Grammars
  import opened LrMachine
  import opened FiniteSets

  /** The only reduction of a cell, made on a stack. */
  function Next(pt: ParseTables, t: nat, st: seq<nat>): Option<seq<nat>> {
    if st == [] then None
    else match ActionEntry(pt, Last(st), t)
      case Reduce(p) =>
        if p < |pt.prods| && |pt.prods[p].rhs| < |st| then
          var base := st[..|st| - |pt.prods[p].rhs|];
          if (Last(base), pt.prods[p].lhs) in pt.goto then Some(base + [pt.goto[(Last(base), pt.prods[p].lhs)]])
            else None
        else None
      case _ => None
  }

  ghost predicate Halts(pt: ParseTables, t: nat, st: seq<nat>, n: nat)
    decreases n
  {
    Next(pt, t, st).Some? ==> n > 0 && Halts(pt, t, Next(pt, t, st).value, n - 1)
  }

  ghost predicate HaltsAtLast(pt: ParseTables, t: nat, st: seq<nat>) {
    exists n: nat :: Halts(pt, t, st, n)
  }

  /** On no stack and no token are there reductions forever. */
  ghost predicate AlwaysHalts(pt: ParseTables) {
    forall st: seq<nat>, t: nat :: StackPath(pt, st) ==> HaltsAtLast(pt, t, st)
  }

  /** The stack after `k` reductions. */
  function Run(pt: ParseTables, t: nat, st: seq<nat>, k: nat): Option<seq<nat>>
    decreases k
  {
    if k == 0 then Some(st)
    else match Next(pt, t, st)
      case None => None
      case Some(st') => Run(pt, t, st', k - 1)
  }

  ghost predicate Leads(pt: ParseTables, t: nat, u: seq<nat>, v: seq<nat>) {
    exists k: nat :: k > 0 && Run(pt, t, u, k) == Some(v)
  }

  // ---------------------------------------------------------------- the two ways to go on forever

  /** Reductions that leave `r` alone replace `s` until it is back. */
  ghost predicate Cycles(pt: ParseTables, t: nat, r: nat, s: nat) {
    Leads(pt, t, [r, s], [r, s])
  }

  /** Reductions that leave `s` alone put another `s` on the stack. */
  ghost predicate Grows(pt: ParseTables, t: nat, s: nat) {
    exists w: seq<nat> :: LeadsUp(pt, t, s, w, s)
  }

  ghost predicate LeadsUp(pt: ParseTables, t: nat, s: nat, w: seq<nat>, x: nat) {
    Leads(pt, t, [s], [s] + w + [x])
  }

  /** This can be read off the tables: it takes no more than two states to see it. */
  ghost predicate Loops(pt: ParseTables, t: nat) {
    || (exists r: nat, s: nat :: Reached(pt, r) && Goes(pt, r, s) && Cycles(pt, t, r, s))
    || (exists s: nat :: Reached(pt, s) && Grows(pt, t, s))
  }

  // ---------------------------------------------------------------- runs

  lemma NextOnPath(pt: ParseTables, t: nat, st: seq<nat>, p: nat)
    requires ValidTables(pt) && StackPath(pt, st) && ActionEntry(pt, Last(st), t) == Reduce(p)
    ensures p < |pt.prods| && |pt.prods[p].rhs| < |st| && Next(pt, t, st).Some?
    ensures var k := |st| - |pt.prods[p].rhs|;
            && (forall i :: k <= i < |st| ==> SymbolOf(pt, st[i]) == Some(pt.prods[p].rhs[i - k]))
            && (st[k - 1], pt.prods[p].lhs) in pt.goto
            && Next(pt, t, st) == Some(st[..k] + [pt.goto[(st[k - 1], pt.prods[p].lhs)]])
  {
    assert CanReduce(ActionEntry(pt, Last(st), t), p);
    var k := |st| - |pt.prods[p].rhs|;
    var top := st[k - 1..];
    assert StatePath(pt, top) && Last(top) == Last(st);
    assert SpellsRhs(pt, top, p);
    assert Last(st[..k]) == st[k - 1] == top[0];
    forall i | k <= i < |st| ensures SymbolOf(pt, st[i]) == Some(pt.prods[p].rhs[i - k]) {
      assert top[i - k + 1] == st[i];
    }
  }

  /** A reduction keeps the states below the ones it pops, and leaves at least two. */
  lemma NextKeeps(pt: ParseTables, t: nat, st: seq<nat>)
    requires Next(pt, t, st).Some?
    ensures var st' := Next(pt, t, st).value;
            2 <= |st'| <= |st| + 1 && st'[..|st'| - 1] == st[..|st'| - 1]
  {
  }

  lemma NextIsPath(pt: ParseTables, t: nat, st: seq<nat>)
    requires ValidTables(pt) && StackPath(pt, st) && Next(pt, t, st).Some?
    ensures StackPath(pt, Next(pt, t, st).value)
  {
    var p := ActionEntry(pt, Last(st), t).prod;
    var base := st[..|st| - |pt.prods[p].rhs|];
    assert GotoValid(pt, Last(base), pt.prods[p].lhs);
  }

  lemma {:induction false} RunIsPath(pt: ParseTables, t: nat, st: seq<nat>, k: nat)
    requires ValidTables(pt) && StackPath(pt, st) && Run(pt, t, st, k).Some?
    ensures StackPath(pt, Run(pt, t, st, k).value)
    decreases k
  {
    if k > 0 {
      NextIsPath(pt, t, st);
      RunIsPath(pt, t, Next(pt, t, st).value, k - 1);
    }
  }

  lemma {:induction false} RunOn(pt: ParseTables, t: nat, st: seq<nat>, j: nat, k: nat)
    ensures Run(pt, t, st, j + k) == match Run(pt, t, st, j) case None => None case Some(v) => Run(pt, t, v, k)
    decreases j
  {
    if j > 0 && Next(pt, t, st).Some? {
      RunOn(pt, t, Next(pt, t, st).value, j - 1, k);
    }
  }

  lemma LeadsOn(pt: ParseTables, t: nat, a: seq<nat>, b: seq<nat>, c: seq<nat>)
    requires Leads(pt, t, a, b) && Leads(pt, t, b, c)
    ensures Leads(pt, t, a, c)
  {
    var j: nat :| j > 0 && Run(pt, t, a, j) == Some(b);
    var k: nat :| k > 0 && Run(pt, t, b, k) == Some(c);
    RunOn(pt, t, a, j, k);
  }

  /** What lies below makes no difference. */
  lemma NextFrame(pt: ParseTables, t: nat, b: seq<nat>, u: seq<nat>)
    requires Next(pt, t, u).Some?
    ensures Next(pt, t, b + u) == Some(b + Next(pt, t, u).value)
  {
    var p := ActionEntry(pt, Last(u), t).prod;
    var base := u[..|u| - |pt.prods[p].rhs|];
    BelowBase(b, u, |pt.prods[p].rhs|);
    assert b + (base + [pt.goto[(Last(base), pt.prods[p].lhs)]]) == b + base + [pt.goto[(Last(base), pt.prods[p].lhs)]];
  }

  lemma BelowBase(b: seq<nat>, u: seq<nat>, k: nat)
    requires k < |u|
    ensures (b + u)[..|b + u| - k] == b + u[..|u| - k] && Last(b + u) == Last(u)
    ensures Last(b + u[..|u| - k]) == Last(u[..|u| - k])
  {
  }

  lemma {:induction false} RunFrame(pt: ParseTables, t: nat, b: seq<nat>, u: seq<nat>, k: nat)
    requires Run(pt, t, u, k).Some?
    ensures Run(pt, t, b + u, k) == Some(b + Run(pt, t, u, k).value)
    decreases k
  {
    if k > 0 {
      NextFrame(pt, t, b, u);
      RunFrame(pt, t, b, Next(pt, t, u).value, k - 1);
    }
  }

  lemma LeadsFrame(pt: ParseTables, t: nat, b: seq<nat>, u: seq<nat>, v: seq<nat>)
    requires Leads(pt, t, u, v)
    ensures Leads(pt, t, b + u, b + v)
  {
    var k: nat :| k > 0 && Run(pt, t, u, k) == Some(v);
    RunFrame(pt, t, b, u, k);
  }

  /** A run that never pops the first state of `u` does not need what lies below it. */
  lemma {:induction false} RunAbove(pt: ParseTables, t: nat, b: seq<nat>, u: seq<nat>, k: nat)
    requires u != [] && Run(pt, t, b + u, k).Some?
    requires forall j: nat :: 0 < j <= k && Run(pt, t, b + u, j).Some? ==> |Run(pt, t, b + u, j).value| > |b| + 1
    ensures Run(pt, t, u, k).Some? && Run(pt, t, u, k).value != [] && Run(pt, t, u, k).value[0] == u[0]
    ensures Run(pt, t, b + u, k) == Some(b + Run(pt, t, u, k).value)
    decreases k
  {
    if k > 0 {
      assert Run(pt, t, b + u, 1) == Next(pt, t, b + u);
      var u' := NextAbove(pt, t, b, u);
      forall j: nat | 0 < j <= k - 1 && Run(pt, t, b + u', j).Some? ensures |Run(pt, t, b + u', j).value| > |b| + 1 {
        assert Run(pt, t, b + u, j + 1) == Run(pt, t, b + u', j);
      }
      RunAbove(pt, t, b, u', k - 1);
    }
  }

  lemma NextAbove(pt: ParseTables, t: nat, b: seq<nat>, u: seq<nat>) returns (u': seq<nat>)
    requires u != [] && Next(pt, t, b + u).Some? && |Next(pt, t, b + u).value| > |b| + 1
    ensures u' != [] && u'[0] == u[0] && Next(pt, t, u) == Some(u') && Next(pt, t, b + u) == Some(b + u')
  {
    assert Last(b + u) == Last(u);
    BelowBase(b, u, |pt.prods[ActionEntry(pt, Last(u), t).prod].rhs|);
    NextFrame(pt, t, b, u);
    u' := Next(pt, t, u).value;
  }

  // ---------------------------------------------------------------- a loop never halts

  lemma {:induction false} HaltsLater(pt: ParseTables, t: nat, st: seq<nat>, k: nat, n: nat)
    requires Run(pt, t, st, k).Some? && Halts(pt, t, st, n)
    ensures k <= n && Halts(pt, t, Run(pt, t, st, k).value, n - k)
    decreases k
  {
    if k > 0 {
      HaltsLater(pt, t, Next(pt, t, st).value, k - 1, n - 1);
    }
  }

  lemma {:induction false} CyclesForever(pt: ParseTables, t: nat, b: seq<nat>, r: nat, s: nat, n: nat)
    requires Cycles(pt, t, r, s)
    ensures !Halts(pt, t, b + [r, s], n)
    decreases n
  {
    if Halts(pt, t, b + [r, s], n) {
      var k: nat :| k > 0 && Run(pt, t, [r, s], k) == Some([r, s]);
      RunFrame(pt, t, b, [r, s], k);
      HaltsLater(pt, t, b + [r, s], k, n);
      CyclesForever(pt, t, b, r, s, n - k);
    }
  }

  lemma {:induction false} GrowsForever(pt: ParseTables, t: nat, b: seq<nat>, s: nat, n: nat)
    requires Grows(pt, t, s)
    ensures !Halts(pt, t, b + [s], n)
    decreases n
  {
    if Halts(pt, t, b + [s], n) {
      var w: seq<nat> :| LeadsUp(pt, t, s, w, s);
      var k: nat :| k > 0 && Run(pt, t, [s], k) == Some([s] + w + [s]);
      RunFrame(pt, t, b, [s], k);
      HaltsLater(pt, t, b + [s], k, n);
      assert b + ([s] + w + [s]) == b + ([s] + w) + [s];
      GrowsForever(pt, t, b + ([s] + w), s, n - k);
    }
  }

  lemma LoopNeverHalts(pt: ParseTables, t: nat) returns (st: seq<nat>)
    requires Loops(pt, t)
    ensures StackPath(pt, st) && !HaltsAtLast(pt, t, st)
  {
    if r: nat, s: nat :| Reached(pt, r) && Goes(pt, r, s) && Cycles(pt, t, r, s) {
      var below: seq<nat> :| below != [] && Last(below) == r && StackPath(pt, below);
      st := below + [s];
      var b := below[..|below| - 1];
      assert st == b + [r, s];
      forall n: nat ensures !Halts(pt, t, st, n) {
        CyclesForever(pt, t, b, r, s, n);
      }
    } else {
      var s: nat :| Reached(pt, s) && Grows(pt, t, s);
      st :| st != [] && Last(st) == s && StackPath(pt, st);
      var b := st[..|st| - 1];
      assert st == b + [s];
      forall n: nat ensures !Halts(pt, t, st, n) {
        GrowsForever(pt, t, b, s, n);
      }
    }
  }

  // ---------------------------------------------------------------- what never halts has a loop

  lemma {:induction false} RunsOut(pt: ParseTables, t: nat, st: seq<nat>, k: nat)
    requires Run(pt, t, st, k).None?
    ensures Halts(pt, t, st, k)
    decreases k
  {
    if k > 0 && Next(pt, t, st).Some? {
      RunsOut(pt, t, Next(pt, t, st).value, k - 1);
    }
  }

  /** The reductions go on forever, and from the first one on the stack has more than `h` states. */
  ghost predicate Stays(pt: ParseTables, t: nat, st: seq<nat>, h: int) {
    forall k: nat :: k > 0 ==> Run(pt, t, st, k).Some? && |Run(pt, t, st, k).value| > h
  }

  lemma StaysLater(pt: ParseTables, t: nat, st: seq<nat>, h: int, j: nat)
    requires Stays(pt, t, st, h)
    ensures Run(pt, t, st, j).Some? && Stays(pt, t, Run(pt, t, st, j).value, h)
  {
    assert j > 0 ==> Run(pt, t, st, j).Some?;
    forall k: nat | k > 0
      ensures Run(pt, t, Run(pt, t, st, j).value, k).Some? && |Run(pt, t, Run(pt, t, st, j).value, k).value| > h
    {
      RunOn(pt, t, st, j, k);
      assert Run(pt, t, st, j + k).Some?;
    }
  }

  lemma StaysStack(pt: ParseTables, t: nat, st: seq<nat>, h: int)
    requires ValidTables(pt) && StackPath(pt, st) && Stays(pt, t, st, h)
    ensures Next(pt, t, st).Some? && forall i :: 0 <= i < |st| ==> st[i] < pt.numStates
  {
    assert Run(pt, t, st, 1).Some?;
    var p := ActionEntry(pt, Last(st), t).prod;
    assert GotoValid(pt, Last(st[..|st| - |pt.prods[p].rhs|]), pt.prods[p].lhs);
    forall i | 0 <= i < |st| ensures st[i] < pt.numStates {
      if i > 0 {
        TargetInRange(pt, st[i - 1], st[i]);
      }
    }
  }

  lemma TargetInRange(pt: ParseTables, r: nat, s: nat)
    requires ValidTables(pt) && Goes(pt, r, s)
    ensures START < s < pt.numStates
  {
    match SymbolOf(pt, s)
    case Some(T(t)) => assert ShiftValid(pt, r, t);
    case Some(N(b)) => assert GotoValid(pt, r, b);
  }

  /** Some stack of the run is never undercut. */
  lemma {:induction false} Lowest(pt: ParseTables, t: nat, st: seq<nat>, h: int) returns (k: nat)
    requires Stays(pt, t, st, h)
    ensures Run(pt, t, st, k).Some? && var v := Run(pt, t, st, k).value; v != [] && Stays(pt, t, v, |v| - 1)
    decreases |st|
  {
    if Stays(pt, t, st, |st| - 1) {
      k := 0;
      assert Run(pt, t, st, 1).Some?;
    } else {
      var j: nat :| j > 0 && !(Run(pt, t, st, j).Some? && |Run(pt, t, st, j).value| > |st| - 1);
      StaysLater(pt, t, st, h, j);
      var i := Lowest(pt, t, Run(pt, t, st, j).value, h);
      RunOn(pt, t, st, j, i);
      k := j + i;
    }
  }

  /** Above `b`, a run that never pops it either repeats a state or comes to one that is never popped. */
  lemma {:induction false} Settle(pt: ParseTables, t: nat, b: seq<nat>, x: nat, seen: set<nat>) returns (y: nat)
    requires ValidTables(pt) && b != [] && StackPath(pt, b + [x]) && Stays(pt, t, b + [x], |b|)
    requires seen <= NatsBelow(pt.numStates) && forall z: nat :: z in seen ==> Leads(pt, t, [Last(b), z], [Last(b), x])
    ensures StackPath(pt, b + [y]) && (y == x || Leads(pt, t, [Last(b), x], [Last(b), y]))
    ensures Cycles(pt, t, Last(b), y) || Stays(pt, t, b + [y], |b| + 1)
    decreases pt.numStates - |seen|
  {
    if x in seen || Stays(pt, t, b + [x], |b| + 1) {
      y := x;
    } else {
      var x' := BackOnTop(pt, t, b, x);
      SeenGrows(pt, t, b, x, seen);
      forall z: nat | z in seen ensures Leads(pt, t, [Last(b), z], [Last(b), x']) {
        LeadsOn(pt, t, [Last(b), z], [Last(b), x], [Last(b), x']);
      }
      y := Settle(pt, t, b, x', seen + {x});
      if y != x' {
        LeadsOn(pt, t, [Last(b), x], [Last(b), x'], [Last(b), y]);
      }
    }
  }

  lemma SeenGrows(pt: ParseTables, t: nat, b: seq<nat>, x: nat, seen: set<nat>)
    requires ValidTables(pt) && StackPath(pt, b + [x]) && Stays(pt, t, b + [x], |b|)
    requires seen <= NatsBelow(pt.numStates) && x !in seen
    ensures seen + {x} <= NatsBelow(pt.numStates) && |seen| < |seen + {x}| <= pt.numStates
  {
    StaysStack(pt, t, b + [x], |b|);
    assert (b + [x])[|b|] == x;
    NatsBelowSize(pt.numStates);
    SubsetSize(seen + {x}, NatsBelow(pt.numStates));
  }

  /** Another state takes the place of `x`. */
  lemma BackOnTop(pt: ParseTables, t: nat, b: seq<nat>, x: nat) returns (y: nat)
    requires ValidTables(pt) && b != [] && StackPath(pt, b + [x])
    requires Stays(pt, t, b + [x], |b|) && !Stays(pt, t, b + [x], |b| + 1)
    ensures StackPath(pt, b + [y]) && Stays(pt, t, b + [y], |b|) && Leads(pt, t, [Last(b), x], [Last(b), y])
  {
    var k: nat :| k > 0 && !(Run(pt, t, b + [x], k).Some? && |Run(pt, t, b + [x], k).value| > |b| + 1);
    assert Run(pt, t, b + [x], k).Some? && |Run(pt, t, b + [x], k).value| == |b| + 1;
    y := OnTopAgain(pt, t, b, x, k);
    StaysLater(pt, t, b + [x], |b|, k);
    RunIsPath(pt, t, b + [x], k);
  }

  lemma OnTopAgain(pt: ParseTables, t: nat, b: seq<nat>, x: nat, k: nat) returns (y: nat)
    requires b != [] && Stays(pt, t, b + [x], |b|) && k > 0
    requires Run(pt, t, b + [x], k).Some? && |Run(pt, t, b + [x], k).value| == |b| + 1
    ensures Leads(pt, t, [Last(b), x], [Last(b), y]) && Run(pt, t, b + [x], k) == Some(b + [y])
  {
    var c := b[..|b| - 1];
    assert b + [x] == c + [Last(b), x];
    RunAbove(pt, t, c, [Last(b), x], k);
    var u := Run(pt, t, [Last(b), x], k).value;
    y := u[1];
    assert u == [Last(b), y] && c + [Last(b), y] == b + [y];
  }

  /** `s` has been passed on the way up to `x`, and both are there for good. */
  ghost predicate PilesUp(pt: ParseTables, t: nat, s: nat, x: nat) {
    exists w: seq<nat> :: LeadsUp(pt, t, s, w, x)
  }

  lemma PilesUpOn(pt: ParseTables, t: nat, a: nat, b: nat, c: nat)
    requires PilesUp(pt, t, a, b) && PilesUp(pt, t, b, c)
    ensures PilesUp(pt, t, a, c)
  {
    var w: seq<nat> :| LeadsUp(pt, t, a, w, b);
    var w': seq<nat> :| LeadsUp(pt, t, b, w', c);
    LeadsFrame(pt, t, [a] + w, [b], [b] + w' + [c]);
    assert [a] + w + ([b] + w' + [c]) == [a] + (w + [b] + w') + [c];
    LeadsOn(pt, t, [a], [a] + w + [b], [a] + (w + [b] + w') + [c]);
    assert LeadsUp(pt, t, a, w + [b] + w', c);
  }

  /** From a state that is never popped up to the next. */
  lemma StepUp(pt: ParseTables, t: nat, b: seq<nat>, x: nat) returns (b': seq<nat>, y: nat)
    requires ValidTables(pt) && StackPath(pt, b + [x]) && Stays(pt, t, b + [x], |b| + 1)
    ensures StackPath(pt, b' + [y]) && b' != [] && PilesUp(pt, t, x, y)
    ensures Cycles(pt, t, Last(b'), y) || Stays(pt, t, b' + [y], |b'| + 1)
  {
    StaysLater(pt, t, b + [x], |b| + 1, 1);
    var k := Lowest(pt, t, Run(pt, t, b + [x], 1).value, |b| + 1);
    RunOn(pt, t, b + [x], 1, k);
    var u := TopPart(pt, t, b, x, 1 + k);
    b' := b + u[..|u| - 1];
    assert b + u == b' + [Last(u)];
    y := Settle(pt, t, b', Last(u), {});
    PassedOn(pt, t, x, u, y);
  }

  lemma TopPart(pt: ParseTables, t: nat, b: seq<nat>, x: nat, k: nat) returns (u: seq<nat>)
    requires ValidTables(pt) && StackPath(pt, b + [x]) && Stays(pt, t, b + [x], |b| + 1) && k > 0
    ensures |u| >= 2 && u[0] == x && Leads(pt, t, [x], u)
    ensures Run(pt, t, b + [x], k) == Some(b + u) && StackPath(pt, b + u)
  {
    RunAbove(pt, t, b, [x], k);
    u := Run(pt, t, [x], k).value;
    assert |b + u| > |b| + 1;
    RunIsPath(pt, t, b + [x], k);
  }

  lemma PassedOn(pt: ParseTables, t: nat, x: nat, u: seq<nat>, y: nat)
    requires |u| >= 2 && u[0] == x && Leads(pt, t, [x], u)
    requires y == Last(u) || Leads(pt, t, [u[|u| - 2], Last(u)], [u[|u| - 2], y])
    ensures PilesUp(pt, t, x, y)
  {
    var w := u[1..|u| - 1];
    assert u == [x] + w + [Last(u)];
    if y != Last(u) {
      var c := u[..|u| - 2];
      LeadsFrame(pt, t, c, [u[|u| - 2], Last(u)], [u[|u| - 2], y]);
      assert c + [u[|u| - 2], Last(u)] == u && c + [u[|u| - 2], y] == [x] + w + [y];
      LeadsOn(pt, t, [x], u, [x] + w + [y]);
    }
    assert LeadsUp(pt, t, x, w, y);
  }

  /** States that are never popped pile up, so one of them comes again. */
  lemma {:induction false} Climb(pt: ParseTables, t: nat, b: seq<nat>, x: nat, kept: set<nat>)
    requires ValidTables(pt) && StackPath(pt, b + [x]) && Stays(pt, t, b + [x], |b| + 1)
    requires kept <= NatsBelow(pt.numStates) && forall q: nat :: q in kept ==> PilesUp(pt, t, q, x)
    ensures Loops(pt, t)
    decreases pt.numStates - |kept|
  {
    assert Last(b + [x]) == x;
    if x in kept {
      assert Reached(pt, x) && Grows(pt, t, x);
    } else {
      var b', y := StepUp(pt, t, b, x);
      if Cycles(pt, t, Last(b'), y) {
        CycleFound(pt, t, b', y);
      } else {
        assert Stays(pt, t, b + [x], |b|);
        SeenGrows(pt, t, b, x, kept);
        forall q: nat | q in kept ensures PilesUp(pt, t, q, y) {
          PilesUpOn(pt, t, q, x, y);
        }
        Climb(pt, t, b', y, kept + {x});
      }
    }
  }

  lemma CycleFound(pt: ParseTables, t: nat, b: seq<nat>, y: nat)
    requires b != [] && StackPath(pt, b + [y]) && Cycles(pt, t, Last(b), y)
    ensures Loops(pt, t)
  {
    var st := b + [y];
    assert StackPath(pt, b) by {
      forall i, j | 0 <= i < j < |b| && j == i + 1 ensures Goes(pt, b[i], b[j]) {
        assert Goes(pt, st[i], st[j]);
      }
    }
    assert st[|b| - 1] == Last(b) && st[|b|] == y;
    assert Reached(pt, Last(b)) && Goes(pt, Last(b), y);
  }

  lemma LoopFound(pt: ParseTables, t: nat, st: seq<nat>)
    requires ValidTables(pt) && StackPath(pt, st) && !HaltsAtLast(pt, t, st)
    ensures Loops(pt, t)
  {
    forall k: nat ensures Run(pt, t, st, k).Some? {
      if Run(pt, t, st, k).None? {
        RunsOut(pt, t, st, k);
      }
    }
    var k := Lowest(pt, t, st, -1);
    RunIsPath(pt, t, st, k);
    var v := Run(pt, t, st, k).value;
    var b, x := v[..|v| - 1], Last(v);
    assert v == b + [x];
    if b == [] {
      AlwaysTwo(pt, t, v);
      Climb(pt, t, b, x, {});
    } else {
      var y := Settle(pt, t, b, x, {});
      if Cycles(pt, t, Last(b), y) {
        CycleFound(pt, t, b, y);
      } else {
        Climb(pt, t, b, y, {});
      }
    }
  }

  lemma AlwaysTwo(pt: ParseTables, t: nat, st: seq<nat>)
    requires Stays(pt, t, st, 0)
    ensures Stays(pt, t, st, 1)
  {
    forall k: nat | k > 0 ensures |Run(pt, t, st, k).value| > 1 {
      RunOn(pt, t, st, k - 1, 1);
      assert Run(pt, t, st, k).Some?;
      NextKeeps(pt, t, Run(pt, t, st, k - 1).value);
    }
  }

  /** On some stack the reductions under `t` never end, exactly if the tables have a loop under `t`. */
  lemma LoopsExactly(pt: ParseTables, t: nat)
    requires ValidTables(pt)
    ensures Loops(pt, t) <==> exists st: seq<nat> :: StackPath(pt, st) && !HaltsAtLast(pt, t, st)
  {
    if Loops(pt, t) {
      var st := LoopNeverHalts(pt, t);
    }
    if st: seq<nat> :| StackPath(pt, st) && !HaltsAtLast(pt, t, st) {
      LoopFound(pt, t, st);
    }
  }

  lemma AlwaysHaltsExactly(pt: ParseTables)
    requires ValidTables(pt)
    ensures AlwaysHalts(pt) <==> forall t: nat :: !Loops(pt, t)
  {
    forall t: nat ensures Loops(pt, t) <==> exists st: seq<nat> :: StackPath(pt, st) && !HaltsAtLast(pt, t, st) {
      LoopsExactly(pt, t);
    }
    if !AlwaysHalts(pt) {
      var st: seq<nat>, t: nat :| StackPath(pt, st) && !HaltsAtLast(pt, t, st);
      assert Loops(pt, t);
    }
  }
}
