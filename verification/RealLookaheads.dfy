/** Every lookahead of a generated automaton comes up: some stack of the state goes on to shift it. */
module RealLookaheads {
  import opened Grammars
  import opened LrMachine
  import opened Derivability
  import opened Rewriting
  import opened FirstSets
  import opened Language
  import opened ItemClosure
  import opened LrItemSets
  import opened LrConstruction
  import opened LrAutomaton

  /** Everything that generation from a grammar without precedence declarations provides. */
  ghost predicate Generated(g: Grammar, info: Info, lr: LrGraph, pt: ParseTables) {
    && Finished(g, info, lr) && InfoExact(g, info) && info.forbid == map[]
    && TablesFit(g, ToAutomaton(lr), pt) && TablesKeepAll(g, ToAutomaton(lr), pt)
  }

  /** By reductions under lookahead `t` the machine can get to a state that shifts `t`. */
  ghost predicate Viable(pt: ParseTables, t: nat, st: seq<nat>) {
    exists st' :: Reduces(pt, t, st, st') && st' != [] && ShiftDest(ActionEntry(pt, Last(st'), t)).Some?
  }

  lemma ViableBefore(pt: ParseTables, t: nat, st: seq<nat>, st': seq<nat>)
    requires Reduces(pt, t, st, st') && Viable(pt, t, st')
    ensures Viable(pt, t, st)
  {
    var goal :| Reduces(pt, t, st', goal) && goal != [] && ShiftDest(ActionEntry(pt, Last(goal), t)).Some?;
    ReducesTrans(pt, t, st, st', goal);
  }

  /** With what the completed item leaves behind, `t` can be shifted. */
  ghost predicate RealisedBy(g: Grammar, pt: ParseTables, st: seq<nat>, it: Item, t: nat) {
    && StackPath(pt, st) && it.dot < |st| && it.prod < |g.prods|
    && var base := st[..|st| - it.dot];
       (Last(base), g.prods[it.prod].lhs) in pt.goto
         && Viable(pt, t, base + [pt.goto[(Last(base), g.prods[it.prod].lhs)]])
  }

  ghost predicate Realised(g: Grammar, pt: ParseTables, s: nat, it: Item, t: nat) {
    exists st: seq<nat> :: st != [] && Last(st) == s && RealisedBy(g, pt, st, it, t)
  }

  /** The state after the symbol at the dot has the item with the dot moved. */
  lemma Forward(g: Grammar, info: Info, lr: LrGraph, pt: ParseTables, s: nat, it: Item) returns (u: nat)
    requires Generated(g, info, lr, pt) && s < |lr.sets| && it in All(lr.sets[s]) && AfterDot(g, it).Some?
    ensures (s, AfterDot(g, it).value) in lr.trans && u == lr.trans[(s, AfterDot(g, it).value)] && u < |lr.sets|
    ensures Goes(pt, s, u) && Beta(it) in All(lr.sets[u]) && All(lr.sets[s])[it] <= All(lr.sets[u])[Beta(it)]
    ensures AfterDot(g, it).value.N? ==>
              (s, AfterDot(g, it).value.n) in pt.goto && pt.goto[(s, AfterDot(g, it).value.n)] == u
  {
    GotoCompleteIn(g, info, lr, s, it);
    u := lr.trans[(s, AfterDot(g, it).value)];
  }

  /** ... and goes on any stack with the state before it on top. */
  lemma Onward(g: Grammar, info: Info, lr: LrGraph, pt: ParseTables, st: seq<nat>, it: Item) returns (u: nat)
    requires Generated(g, info, lr, pt) && StateItemOK(g, ToAutomaton(lr), st, it) && AfterDot(g, it).Some?
    ensures (Last(st), AfterDot(g, it).value) in lr.trans && u == lr.trans[(Last(st), AfterDot(g, it).value)]
    ensures Goes(pt, Last(st), u) && StateItemOK(g, ToAutomaton(lr), st + [u], Beta(it))
    ensures All(lr.sets[Last(st)])[it] <= All(lr.sets[u])[Beta(it)]
    ensures AfterDot(g, it).value.N? ==>
              (Last(st), AfterDot(g, it).value.n) in pt.goto && pt.goto[(Last(st), AfterDot(g, it).value.n)] == u
  {
    u := Forward(g, info, lr, pt, Last(st), it);
  }

  /** What follows the dot begins with `t`, or vanishes and the item has `t` in its lookahead. */
  ghost predicate Follows(g: Grammar, lr: LrGraph, s: nat, it: Item, t: nat)
    requires s < |lr.sets| && it in All(lr.sets[s]) && it.prod < |g.prods| && it.dot < |g.prods[it.prod].rhs|
  {
    var rest := g.prods[it.prod].rhs[it.dot + 1..];
    InFirst(g, rest, t) || (Rewrites(g, rest, []) && t in All(lr.sets[s])[it])
  }

  lemma GivenItem(g: Grammar, info: Info, lr: LrGraph, s: nat, it: Item, q: nat)
    requires Finished(g, info, lr) && InfoExact(g, info) && info.forbid == map[]
    requires s < |lr.sets| && it in All(lr.sets[s]) && ItemIn(g, it) && Wants(g, it, q)
    ensures Item(q, 0) in All(lr.sets[s]) && ItemIn(g, Item(q, 0))
    ensures forall t: nat :: Follows(g, lr, s, it, t) ==> t in All(lr.sets[s])[Item(q, 0)]
  {
    var all := All(lr.sets[s]);
    ClosedInAll(g, info, lr.sets[s], s == START);
    assert Given(g, info, it, all[it], all) && GivenTo(g, info, it, all[it], all, q);
    assert InfoExactAt(g, info, Beta(it));
  }

  /** A nonterminal that vanishes can be put on the stack under any lookahead that may follow it. */
  lemma {:induction false} ReduceNothing(g: Grammar, info: Info, lr: LrGraph, pt: ParseTables, st: seq<nat>, it: Item,
                                         tree: Tree, t: nat)
    requires Generated(g, info, lr, pt) && StateItemOK(g, ToAutomaton(lr), st, it) && AfterDot(g, it).Some?
    requires Plain(tree) && Produces(g, tree, AfterDot(g, it).value) && Yield(tree) == []
    requires Follows(g, lr, Last(st), it, t)
    ensures (Last(st), AfterDot(g, it).value) in lr.trans
    ensures Reduces(pt, t, st, st + [lr.trans[(Last(st), AfterDot(g, it).value)]])
    decreases tree, 1
  {
    var u := Onward(g, info, lr, pt, st, it);
    var q := tree.prod;
    NotStartTree(g, tree, g.prods[it.prod].rhs, it.prod, it.dot);
    GivenItem(g, info, lr, Last(st), it, q);
    var st' := ReduceAllNothing(g, info, lr, pt, st, Item(q, 0), tree.kids, t);
    ReduceCompleted(g, ToAutomaton(lr), pt, st, st', q, t);
  }

  lemma ReduceCompleted(g: Grammar, a: Automaton, pt: ParseTables, st: seq<nat>, st': seq<nat>, q: nat, t: nat)
    requires TablesKeepAll(g, a, pt) && pt.prods == g.prods && 0 < q < |g.prods|
    requires st != [] && st <= st' && |st'| == |st| + |g.prods[q].rhs| && Reduces(pt, t, st, st')
    requires var done := Item(q, |g.prods[q].rhs|);
             Last(st') < |a.items| && done in a.items[Last(st')] && t in a.items[Last(st')][done]
    requires (Last(st), g.prods[q].lhs) in pt.goto
    ensures Reduces(pt, t, st, st + [pt.goto[(Last(st), g.prods[q].lhs)]])
  {
    var goal := st + [pt.goto[(Last(st), g.prods[q].lhs)]];
    assert KeepsReduce(g, a, pt, Last(st'), q, t);
    assert st'[..|st'| - |g.prods[q].rhs|] == st;
    assert ReducesBy(pt, t, st', goal, q);
    ReducesOne(pt, t, st', goal, q);
    ReducesTrans(pt, t, st, st', goal);
  }

  /** ... and so can the rest of a right-hand side. */
  lemma {:induction false} ReduceAllNothing(g: Grammar, info: Info, lr: LrGraph, pt: ParseTables, st: seq<nat>,
                                            it: Item, f: Forest, t: nat)
      returns (st': seq<nat>)
    requires Generated(g, info, lr, pt) && StateItemOK(g, ToAutomaton(lr), st, it) && t in All(lr.sets[Last(st)])[it]
    requires PlainAll(f) && ProducesAll(g, f, g.prods[it.prod].rhs[it.dot..]) && Yields(f) == []
    ensures Reduces(pt, t, st, st') && st <= st' && |st'| == |st| + |g.prods[it.prod].rhs| - it.dot
    ensures var done := Item(it.prod, |g.prods[it.prod].rhs|);
            Last(st') < |lr.sets| && done in All(lr.sets[Last(st')]) && t in All(lr.sets[Last(st')])[done]
    decreases f, 0
  {
    var rhs := g.prods[it.prod].rhs;
    match f
    case Nil =>
      assert |rhs[it.dot..]| == 0;
      st' := st;
      ReducesRefl(pt, t, st);
    case Cons(head, tail) =>
      HeadOfNothing(g, f, rhs, it.dot);
      var u := ReduceHead(g, info, lr, pt, st, it, head, tail, t);
      st' := ReduceAllNothing(g, info, lr, pt, st + [u], Beta(it), tail, t);
      ReducesTrans(pt, t, st, st + [u], st');
      PrefixOfMore(st, u, st');
  }

  lemma HeadOfNothing(g: Grammar, f: Forest, rhs: seq<Symbol>, i: nat)
    requires i <= |rhs| && f.Cons? && PlainAll(f) && ProducesAll(g, f, rhs[i..]) && Yields(f) == []
    ensures i < |rhs| && Plain(f.head) && Produces(g, f.head, rhs[i]) && Yield(f.head) == []
    ensures PlainAll(f.tail) && ProducesAll(g, f.tail, rhs[i + 1..]) && Yields(f.tail) == []
  {
    assert rhs[i..][0] == rhs[i] && rhs[i..][1..] == rhs[i + 1..];
  }

  lemma PrefixOfMore(st: seq<nat>, u: nat, st': seq<nat>)
    requires st + [u] <= st'
    ensures st <= st'
  {
    assert st == (st + [u])[..|st|];
  }

  lemma {:induction false} ReduceHead(g: Grammar, info: Info, lr: LrGraph, pt: ParseTables, st: seq<nat>, it: Item,
                                      head: Tree, tail: Forest, t: nat) returns (u: nat)
    requires Generated(g, info, lr, pt) && StateItemOK(g, ToAutomaton(lr), st, it) && t in All(lr.sets[Last(st)])[it]
    requires AfterDot(g, it).Some? && Plain(head) && Produces(g, head, AfterDot(g, it).value) && Yield(head) == []
    requires PlainAll(tail) && ProducesAll(g, tail, g.prods[it.prod].rhs[it.dot + 1..]) && Yields(tail) == []
    ensures Reduces(pt, t, st, st + [u]) && StateItemOK(g, ToAutomaton(lr), st + [u], Beta(it))
    ensures t in All(lr.sets[u])[Beta(it)]
    decreases head, 2
  {
    ForestToNothing(g, tail, g.prods[it.prod].rhs[it.dot + 1..]);
    u := Onward(g, info, lr, pt, st, it);
    ReduceNothing(g, info, lr, pt, st, it, head, t);
  }

  /** If what follows the dot begins with `t`, the machine can get to shift `t`. */
  lemma {:induction false} GetsToShift(g: Grammar, info: Info, lr: LrGraph, pt: ParseTables, st: seq<nat>, it: Item,
                                       t: nat, depth: nat, i: nat)
    requires Generated(g, info, lr, pt) && StateItemOK(g, ToAutomaton(lr), st, it)
    requires BeginsAt(g, g.prods[it.prod].rhs[it.dot..], t, depth, i)
    ensures Viable(pt, t, st)
    decreases depth, i
  {
    var rest := g.prods[it.prod].rhs[it.dot..];
    assert rest[0] == g.prods[it.prod].rhs[it.dot];
    if i > 0 {
      var u := SkipNothing(g, info, lr, pt, st, it, t, depth, i);
      GetsToShift(g, info, lr, pt, st + [u], Beta(it), t, depth, i - 1);
      ViableBefore(pt, t, st, st + [u]);
    } else if rest[0].T? {
      var u := Onward(g, info, lr, pt, st, it);
      ReducesRefl(pt, t, st);
    } else {
      var q, k := Descend(g, info, lr, pt, st, it, t, depth);
      GetsToShift(g, info, lr, pt, st, Item(q, 0), t, depth - 1, k);
    }
  }

  lemma SkipNothing(g: Grammar, info: Info, lr: LrGraph, pt: ParseTables, st: seq<nat>, it: Item, t: nat, depth: nat,
                    i: nat)
      returns (u: nat)
    requires Generated(g, info, lr, pt) && StateItemOK(g, ToAutomaton(lr), st, it) && i > 0
    requires BeginsAt(g, g.prods[it.prod].rhs[it.dot..], t, depth, i)
    ensures StateItemOK(g, ToAutomaton(lr), st + [u], Beta(it)) && Reduces(pt, t, st, st + [u])
    ensures BeginsAt(g, g.prods[it.prod].rhs[Beta(it).dot..], t, depth, i - 1)
  {
    var rhs := g.prods[it.prod].rhs;
    var rest := rhs[it.dot..];
    assert rest[..i][0] == rest[0] == rhs[it.dot] && Nullable(g, rest[0]);
    var tree :| Plain(tree) && Produces(g, tree, rest[0]) && Yield(tree) == [];
    assert rhs[it.dot + 1..] == rest[1..] && rest[1..][..i - 1] == rest[..i][1..];
    assert BeginsAt(g, rhs[it.dot + 1..], t, depth, i - 1);
    FirstMeans(g, rhs[it.dot + 1..], t);
    u := Onward(g, info, lr, pt, st, it);
    ReduceNothing(g, info, lr, pt, st, it, tree, t);
  }

  lemma Descend(g: Grammar, info: Info, lr: LrGraph, pt: ParseTables, st: seq<nat>, it: Item, t: nat, depth: nat)
      returns (q: nat, k: nat)
    requires Generated(g, info, lr, pt) && StateItemOK(g, ToAutomaton(lr), st, it)
    requires it.dot < |g.prods[it.prod].rhs| && g.prods[it.prod].rhs[it.dot].N?
    requires Begins(g, g.prods[it.prod].rhs[it.dot], t, depth)
    ensures depth > 0 && StateItemOK(g, ToAutomaton(lr), st, Item(q, 0))
    ensures BeginsAt(g, g.prods[q].rhs[0..], t, depth - 1, k)
  {
    var b := g.prods[it.prod].rhs[it.dot].n;
    assert Begins(g, N(b), t, depth);
    q, k :| BeginsBy(g, b, t, depth, q, k);
    GivenItem(g, info, lr, Last(st), it, q);
    assert g.prods[q].rhs[0..] == g.prods[q].rhs;
    forall j | 0 <= j < k ensures Nullable(g, g.prods[q].rhs[..k][j]) {
      assert g.prods[q].rhs[..k][j] == g.prods[q].rhs[j];
    }
  }

  // ---------------------------------------------------------------- every lookahead is realised

  ghost function RealisedOnly(g: Grammar, lr: LrGraph, pt: ParseTables, s: nat): Items
    requires s < |lr.sets|
  {
    map it | it in All(lr.sets[s]) && Reached(pt, s) :: set t | t in All(lr.sets[s])[it] && Realised(g, pt, s, it, t)
  }

  ghost function RealisedFamily(g: Grammar, lr: LrGraph, pt: ParseTables): seq<Items> {
    seq(|lr.sets|, s requires 0 <= s < |lr.sets| => RealisedOnly(g, lr, pt, s))
  }

  /** What an item gives to the items it asks for is realised if its own lookahead is. */
  lemma GivesRealised(g: Grammar, info: Info, lr: LrGraph, pt: ParseTables, s: nat, it: Item, q: nat, t: nat)
    requires Generated(g, info, lr, pt) && s < |lr.sets| && it in All(lr.sets[s]) && Wants(g, it, q) && Reached(pt, s)
    requires t in Gives(info, it, RealisedOnly(g, lr, pt, s)[it], q)
    ensures Realised(g, pt, s, Item(q, 0), t)
  {
    GivenWhy(g, info, lr, s, it, RealisedOnly(g, lr, pt, s)[it], q, t);
    if InFirst(g, g.prods[it.prod].rhs[it.dot + 1..], t) {
      var st: seq<nat> :| st != [] && Last(st) == s && StackPath(pt, st);
      FirstRealised(g, info, lr, pt, st, it, q, t);
    } else {
      var st: seq<nat> :| st != [] && Last(st) == s && RealisedBy(g, pt, st, it, t);
      RestRealised(g, info, lr, pt, st, it, q, t);
    }
  }

  lemma GivenWhy(g: Grammar, info: Info, lr: LrGraph, s: nat, it: Item, la: set<nat>, q: nat, t: nat)
    requires Finished(g, info, lr) && InfoExact(g, info) && info.forbid == map[] && s < |lr.sets|
    requires it in All(lr.sets[s]) && la <= All(lr.sets[s])[it] && Wants(g, it, q) && t in Gives(info, it, la, q)
    ensures ItemIn(g, it)
    ensures var rest := g.prods[it.prod].rhs[it.dot + 1..];
            InFirst(g, rest, t) || (Rewrites(g, rest, []) && t in la && it.prod > 0)
  {
    AllParts(g, info, lr.sets[s], s == START);
    assert InfoExactAt(g, info, Beta(it));
  }

  lemma FirstRealised(g: Grammar, info: Info, lr: LrGraph, pt: ParseTables, st: seq<nat>, it: Item, q: nat, t: nat)
    requires Generated(g, info, lr, pt) && StateItemOK(g, ToAutomaton(lr), st, it) && Wants(g, it, q)
    requires StackPath(pt, st) && InFirst(g, g.prods[it.prod].rhs[it.dot + 1..], t)
    ensures RealisedBy(g, pt, st, Item(q, 0), t)
  {
    var rest := g.prods[it.prod].rhs[it.dot + 1..];
    FirstMeans(g, rest, t);
    var depth: nat, i: nat :| BeginsAt(g, rest, t, depth, i);
    var u := Onward(g, info, lr, pt, st, it);
    GetsToShift(g, info, lr, pt, st + [u], Beta(it), t, depth, i);
    RealisedBelow(g, pt, st, q, t, u);
  }

  lemma RealisedBelow(g: Grammar, pt: ParseTables, st: seq<nat>, q: nat, t: nat, u: nat)
    requires StackPath(pt, st) && q < |g.prods| && Viable(pt, t, st + [u])
    requires (Last(st), g.prods[q].lhs) in pt.goto && pt.goto[(Last(st), g.prods[q].lhs)] == u
    ensures RealisedBy(g, pt, st, Item(q, 0), t)
  {
    assert st[..|st|] == st;
  }

  lemma RestRealised(g: Grammar, info: Info, lr: LrGraph, pt: ParseTables, st: seq<nat>, it: Item, q: nat, t: nat)
    requires Generated(g, info, lr, pt) && StateItemOK(g, ToAutomaton(lr), st, it) && Wants(g, it, q)
    requires RealisedBy(g, pt, st, it, t) && t in All(lr.sets[Last(st)])[it] && it.prod > 0
    requires Rewrites(g, g.prods[it.prod].rhs[it.dot + 1..], [])
    ensures RealisedBy(g, pt, st, Item(q, 0), t)
  {
    var f := NothingDerived(g, g.prods[it.prod].rhs[it.dot + 1..]);
    var u := Onward(g, info, lr, pt, st, it);
    MoveRealised(g, pt, st, it, t, u);
    FinishItem(g, info, lr, pt, st + [u], Beta(it), f, t);
    RealisedBelow(g, pt, st, q, t, u);
  }

  lemma NothingDerived(g: Grammar, xs: seq<Symbol>) returns (f: Forest)
    requires Rewrites(g, xs, [])
    ensures PlainAll(f) && ProducesAll(g, f, xs) && Yields(f) == []
  {
    NothingMeans(g, xs);
    f := NullableSeq(g, xs);
  }

  /** An item whose rest vanishes can be completed and reduced. */
  lemma FinishItem(g: Grammar, info: Info, lr: LrGraph, pt: ParseTables, st: seq<nat>, it: Item, f: Forest, t: nat)
    requires Generated(g, info, lr, pt) && StateItemOK(g, ToAutomaton(lr), st, it)
    requires RealisedBy(g, pt, st, it, t) && t in All(lr.sets[Last(st)])[it] && it.prod > 0
    requires PlainAll(f) && ProducesAll(g, f, g.prods[it.prod].rhs[it.dot..]) && Yields(f) == []
    ensures Viable(pt, t, st)
  {
    var rhs := g.prods[it.prod].rhs;
    var st' := ReduceAllNothing(g, info, lr, pt, st, it, f, t);
    var base := st[..|st| - it.dot];
    var goal := base + [pt.goto[(Last(base), g.prods[it.prod].lhs)]];
    assert KeepsReduce(g, ToAutomaton(lr), pt, Last(st'), it.prod, t);
    assert st'[..|st'| - |rhs|] == base;
    assert ReducesBy(pt, t, st', goal, it.prod);
    ReducesOne(pt, t, st', goal, it.prod);
    ViableBefore(pt, t, st', goal);
    ViableBefore(pt, t, st, st');
  }

  lemma RealisedMeans(g: Grammar, lr: LrGraph, pt: ParseTables, s: nat, it: Item)
    requires s < |lr.sets|
    ensures it in RealisedOnly(g, lr, pt, s) <==> it in All(lr.sets[s]) && Reached(pt, s)
    ensures it in RealisedOnly(g, lr, pt, s) ==>
              forall t: nat :: t in RealisedOnly(g, lr, pt, s)[it] <==>
                t in All(lr.sets[s])[it] && Realised(g, pt, s, it, t)
  {
  }

  lemma MovesRealised(g: Grammar, info: Info, lr: LrGraph, pt: ParseTables, s: nat, it: Item)
    requires Generated(g, info, lr, pt) && s < |lr.sets| && it in RealisedOnly(g, lr, pt, s) && AfterDot(g, it).Some?
    ensures (s, AfterDot(g, it).value) in lr.trans
    ensures var u := lr.trans[(s, AfterDot(g, it).value)];
            u < |lr.sets| && Beta(it) in RealisedOnly(g, lr, pt, u)
            && RealisedOnly(g, lr, pt, s)[it] <= RealisedOnly(g, lr, pt, u)[Beta(it)]
  {
    RealisedMeans(g, lr, pt, s, it);
    var u := Forward(g, info, lr, pt, s, it);
    ReachedOn(pt, s, u);
    RealisedMeans(g, lr, pt, u, Beta(it));
    forall t | t in RealisedOnly(g, lr, pt, s)[it] ensures t in RealisedOnly(g, lr, pt, u)[Beta(it)] {
      RealisedThere(g, pt, s, it, t, u);
    }
  }

  lemma RealisedThere(g: Grammar, pt: ParseTables, s: nat, it: Item, t: nat, u: nat)
    requires Realised(g, pt, s, it, t) && Goes(pt, s, u)
    ensures Realised(g, pt, u, Beta(it), t)
  {
    var st: seq<nat> :| st != [] && Last(st) == s && RealisedBy(g, pt, st, it, t);
    MoveRealised(g, pt, st, it, t, u);
    assert Last(st + [u]) == u;
  }

  lemma ReachedOn(pt: ParseTables, s: nat, u: nat)
    requires Reached(pt, s) && Goes(pt, s, u)
    ensures Reached(pt, u)
  {
    var st: seq<nat> :| st != [] && Last(st) == s && StackPath(pt, st);
    assert Last(st + [u]) == u && StackPath(pt, st + [u]);
  }

  lemma MoveRealised(g: Grammar, pt: ParseTables, st: seq<nat>, it: Item, t: nat, u: nat)
    requires st != [] && RealisedBy(g, pt, st, it, t) && Goes(pt, Last(st), u)
    ensures RealisedBy(g, pt, st + [u], Beta(it), t)
  {
    assert (st + [u])[..|st + [u]| - Beta(it).dot] == st[..|st| - it.dot];
  }

  lemma FamilyIsClosed(g: Grammar, info: Info, lr: LrGraph, pt: ParseTables)
    requires Generated(g, info, lr, pt)
    ensures FamilyClosed(g, info, lr.trans, RealisedFamily(g, lr, pt))
  {
    var fam := RealisedFamily(g, lr, pt);
    var start := [START];
    assert StackPath(pt, start) && Last(start) == START;
    assert Item(0, 0) in lr.sets[START].kernel;
    forall s: nat | s < |fam| ensures ClosedFrom(g, info, fam[s], fam[s]) {
      forall it, q: nat | it in fam[s] ensures GivenTo(g, info, it, fam[s][it], fam[s], q) {
        GivenRealised(g, info, lr, pt, s, it, q);
      }
      forall it | it in fam[s] ensures Given(g, info, it, fam[s][it], fam[s]) {
      }
    }
    forall s: nat, x: Symbol ensures FamilyMoves(g, lr.trans, fam, s, x) {
      if (s, x) in lr.trans {
        TargetIsNotStart(g, info, lr, s, x);
        FamilyMovesOn(g, info, lr, pt, s, x);
      }
    }
  }

  lemma GivenRealised(g: Grammar, info: Info, lr: LrGraph, pt: ParseTables, s: nat, it: Item, q: nat)
    requires Generated(g, info, lr, pt) && s < |lr.sets| && it in RealisedOnly(g, lr, pt, s)
    ensures GivenTo(g, info, it, RealisedOnly(g, lr, pt, s)[it], RealisedOnly(g, lr, pt, s), q)
  {
    if Wants(g, it, q) {
      var all, only := All(lr.sets[s]), RealisedOnly(g, lr, pt, s);
      ClosedInAll(g, info, lr.sets[s], s == START);
      assert Given(g, info, it, all[it], all) && GivenTo(g, info, it, all[it], all, q);
      forall t | t in Gives(info, it, only[it], q) ensures t in only[Item(q, 0)] {
        GivesRealised(g, info, lr, pt, s, it, q, t);
      }
    }
  }

  lemma FamilyMovesOn(g: Grammar, info: Info, lr: LrGraph, pt: ParseTables, s: nat, x: Symbol)
    requires Generated(g, info, lr, pt) && (s, x) in lr.trans && s < |lr.sets| && lr.trans[(s, x)] < |lr.sets|
    ensures Below(MovedItems(g, RealisedOnly(g, lr, pt, s), x), RealisedOnly(g, lr, pt, lr.trans[(s, x)]))
  {
    var from, to := RealisedOnly(g, lr, pt, s), RealisedOnly(g, lr, pt, lr.trans[(s, x)]);
    forall m | m in MovedItems(g, from, x) ensures m in to && MovedItems(g, from, x)[m] <= to[m] {
      ItemMovesOn(g, info, lr, pt, s, x, m);
    }
  }

  lemma MovedFrom(g: Grammar, src: Items, x: Symbol, m: Item) returns (it: Item)
    requires m in MovedItems(g, src, x)
    ensures it in src && AfterDot(g, it) == Some(x) && Beta(it) == m && MovedItems(g, src, x)[m] == src[it]
  {
    it := Item(m.prod, m.dot - 1);
    MovedBack(g, src.Keys, x, m);
  }

  lemma ItemMovesOn(g: Grammar, info: Info, lr: LrGraph, pt: ParseTables, s: nat, x: Symbol, m: Item)
    requires Generated(g, info, lr, pt) && (s, x) in lr.trans && s < |lr.sets| && lr.trans[(s, x)] < |lr.sets|
    requires m in MovedItems(g, RealisedOnly(g, lr, pt, s), x)
    ensures m in RealisedOnly(g, lr, pt, lr.trans[(s, x)])
    ensures MovedItems(g, RealisedOnly(g, lr, pt, s), x)[m] <= RealisedOnly(g, lr, pt, lr.trans[(s, x)])[m]
  {
    var it := MovedFrom(g, RealisedOnly(g, lr, pt, s), x, m);
    MovesRealised(g, info, lr, pt, s, it);
  }

  /** Every state is reached, and every lookahead of every item comes up on some stack. */
  lemma LookaheadsAreRealised(g: Grammar, info: Info, lr: LrGraph, pt: ParseTables, s: nat, it: Item, t: nat)
    requires Generated(g, info, lr, pt) && s < |lr.sets| && it in All(lr.sets[s]) && t in All(lr.sets[s])[it]
    ensures Reached(pt, s) && Realised(g, pt, s, it, t)
  {
    FamilyIsClosed(g, info, lr, pt);
    assert InFamily(lr.sets, RealisedFamily(g, lr, pt));
    assert Below(All(lr.sets[s]), RealisedFamily(g, lr, pt)[s]);
  }
}
