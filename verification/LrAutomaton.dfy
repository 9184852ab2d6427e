/** What the finished graph of item sets means: it is sound, complete, and its lookaheads are least. */
module LrAutomaton {
  import opened Grammars
  import opened LrMachine
  import opened Acceptance
  import opened Language
  import opened Rewriting
  import opened ItemClosure
  import opened LrItemSets
  import opened LrConstruction

  function ToAutomaton(lr: LrGraph): Automaton {
    Automaton(seq(|lr.sets|, s requires 0 <= s < |lr.sets| => All(lr.sets[s])), lr.trans)
  }

  /** First sets and nullability of what follows each dot are exact. */
  ghost predicate InfoExact(g: Grammar, info: Info) {
    forall it :: ItemIn(g, it) ==> InfoExactAt(g, info, it)
  }

  ghost predicate InfoExactAt(g: Grammar, info: Info, it: Item)
    requires ItemIn(g, it)
  {
    && it in info.first
    && (forall t: nat :: t in info.first[it] <==> InFirst(g, g.prods[it.prod].rhs[it.dot..], t))
    && (it in info.vanishing <==> Rewrites(g, g.prods[it.prod].rhs[it.dot..], []))
  }

  // ---------------------------------------------------------------- soundness

  lemma ItemSoundIn(g: Grammar, info: Info, lr: LrGraph, s: nat, it: Item)
    requires Finished(g, info, lr)
    ensures StateItemSound(g, ToAutomaton(lr), s, it)
  {
    if s < |lr.sets| && it in All(lr.sets[s]) {
      var set' := lr.sets[s];
      AllParts(g, info, set', s == START);
      if it in set'.kernel {
        assert KernelItemOK(g, set', s == START, it);
      } else {
        var asker := NonkernelItem(g, info, set', s == START, it);
        assert asker in ToAutomaton(lr).items[s] && AfterDot(g, asker) == Some(N(g.prods[it.prod].lhs));
      }
      if AfterDot(g, it).Some? {
        assert Beta(it) in MovedCore(g, All(set').Keys, AfterDot(g, it).value);
        assert SymDone(g, lr, s, AfterDot(g, it).value);
      }
    }
  }

  lemma TargetIsNotStart(g: Grammar, info: Info, lr: LrGraph, s: nat, x: Symbol)
    requires Built(g, info, lr) && (s, x) in lr.trans
    ensures s < |lr.sets| && START < lr.trans[(s, x)] < |lr.sets|
  {
    assert TransOK(g, lr, s, x);
    var u := lr.trans[(s, x)];
    var it :| it in lr.sets[u].kernel;
    MovedBack(g, All(lr.sets[s]).Keys, x, it);
    assert KernelItemOK(g, lr.sets[u], u == START, it);
  }

  lemma KernelSoundIn(g: Grammar, info: Info, lr: LrGraph, s: nat, x: Symbol, it: Item)
    requires Built(g, info, lr)
    ensures KernelSound(g, ToAutomaton(lr), s, x, it)
  {
    if (s, x) in lr.trans && it.dot > 0 {
      TargetIsNotStart(g, info, lr, s, x);
      assert TransOK(g, lr, s, x);
      var u := lr.trans[(s, x)];
      if it in All(lr.sets[u]) {
        AllParts(g, info, lr.sets[u], u == START);
        assert it in lr.sets[u].kernel;
        MovedBack(g, All(lr.sets[s]).Keys, x, it);
      }
    }
  }

  /** The finished graph is an automaton as the parser needs it. */
  lemma FinishedIsSound(g: Grammar, info: Info, lr: LrGraph)
    requires Finished(g, info, lr)
    ensures AutomatonSound(g, ToAutomaton(lr)) && AutomatonTight(g, ToAutomaton(lr))
  {
    var a := ToAutomaton(lr);
    forall s: nat, it: Item ensures StateItemSound(g, a, s, it) {
      ItemSoundIn(g, info, lr, s, it);
    }
    forall s: nat, x: Symbol ensures TransitionSound(a, s, x) && TransitionTight(g, a, s, x) {
      if (s, x) in lr.trans {
        TargetIsNotStart(g, info, lr, s, x);
        assert TransOK(g, lr, s, x);
        var m :| m in MovedCore(g, All(lr.sets[s]).Keys, x);
        MovedBack(g, All(lr.sets[s]).Keys, x, m);
        assert Item(m.prod, m.dot - 1) in a.items[s];
      }
    }
    forall s: nat, x: Symbol, it: Item ensures KernelSound(g, a, s, x, it) {
      KernelSoundIn(g, info, lr, s, x, it);
    }
    forall s: nat | START < s < |a.items| ensures Entered(a, s) {
      assert EnteredIn(lr, s);
    }
  }

  // ---------------------------------------------------------------- least fixpoint

  /** The item sets are the least family that closure and transitions add nothing to. */
  lemma LookaheadsAreLeastFixpoint(g: Grammar, info: Info, lr: LrGraph)
    requires Finished(g, info, lr)
    ensures FamilyClosed(g, info, lr.trans, ToAutomaton(lr).items)
    ensures forall fam :: FamilyClosed(g, info, lr.trans, fam) ==> InFamily(lr.sets, fam)
  {
    var items := ToAutomaton(lr).items;
    assert Item(0, 0) in lr.sets[START].kernel;
    forall s: nat | s < |items| ensures ClosedFrom(g, info, items[s], items[s]) {
      ClosedInAll(g, info, lr.sets[s], s == START);
    }
    forall s: nat, x: Symbol ensures FamilyMoves(g, lr.trans, items, s, x) {
      if (s, x) in lr.trans {
        TargetIsNotStart(g, info, lr, s, x);
        assert TransOK(g, lr, s, x) && SymDone(g, lr, s, x);
        var u := lr.trans[(s, x)];
        AllParts(g, info, lr.sets[u], u == START);
        BelowTrans(MovedItems(g, items[s], x), lr.sets[u].kernel, items[u]);
      }
    }
  }

  lemma ClosedInAll(g: Grammar, info: Info, s: ItemSet, first: bool)
    requires ItemSetOK(g, info, s, first) && UpToDate(g, info, s) && NoStart(g)
    ensures ClosedFrom(g, info, All(s), All(s))
  {
    AllParts(g, info, s, first);
    forall it | it in All(s) ensures Given(g, info, it, All(s)[it], All(s)) {
      GivenGrows(g, info, it, All(s)[it], s.nonkernel, All(s));
    }
  }

  // ---------------------------------------------------------------- completeness

  lemma {:induction false} TreeBegins(g: Grammar, tree: Tree, x: Symbol, t: nat, w: seq<nat>) returns (depth: nat)
    requires Plain(tree) && Produces(g, tree, x) && Yield(tree) == [t] + w
    ensures Begins(g, x, t, depth)
    decreases tree
  {
    match tree
    case Leaf(u) =>
      assert [u][0] == ([t] + w)[0];
      depth := 0;
    case Node(p, kids) =>
      ForestBegins(g, kids, g.prods[p].rhs, t, w);
      var d: nat, i: nat :| BeginsAt(g, g.prods[p].rhs, t, d, i);
      var before := g.prods[p].rhs[..i];
      assert forall j :: 0 <= j < i ==> before[j] == g.prods[p].rhs[j];
      depth := d + 1;
      assert BeginsBy(g, x.n, t, depth, p, i);
  }

  lemma {:induction false} ForestBegins(g: Grammar, f: Forest, xs: seq<Symbol>, t: nat, w: seq<nat>)
    requires PlainAll(f) && ProducesAll(g, f, xs) && Yields(f) == [t] + w
    ensures BeginsAny(g, xs, t)
    decreases f
  {
    var v := Yield(f.head);
    if v == [] {
      ForestBegins(g, f.tail, xs[1..], t, w);
      assert Nullable(g, xs[0]);
      var d: nat, i: nat :| BeginsAt(g, xs[1..], t, d, i);
      assert xs[..i + 1] == [xs[0]] + xs[1..][..i];
      assert BeginsAt(g, xs, t, d, i + 1);
    } else {
      assert v[0] == ([t] + w)[0];
      var d := TreeBegins(g, f.head, xs[0], t, v[1..]);
      assert BeginsAt(g, xs, t, d, 0);
    }
  }

  /** Whatever may follow in the grammar and is not forbidden is in the lookahead that an item gives. */
  lemma FollowGiven(g: Grammar, info: Info, it: Item, la: set<nat>, q: nat, t: nat)
    requires InfoExact(g, info) && !Forbidden(info.forbid, q, t) && ItemIn(g, it) && it.dot < |g.prods[it.prod].rhs|
    requires MayFollow(g, g.prods[it.prod].rhs[it.dot + 1..], la, t)
    ensures t in Gives(info, it, la, q)
  {
    var rest := g.prods[it.prod].rhs[it.dot + 1..];
    assert ItemIn(g, Beta(it)) && InfoExactAt(g, info, Beta(it));
    if w :| GeneratesAll(g, rest, [t] + w) {
      var f :| PlainAll(f) && ProducesAll(g, f, rest) && Yields(f) == [t] + w;
      ForestBegins(g, f, rest, t, w);
      FirstMeans(g, rest, t);
    } else {
      var f :| PlainAll(f) && ProducesAll(g, f, rest) && Yields(f) == [];
      ForestToNothing(g, f, rest);
    }
  }

  /** Whatever is not forbidden the automaton does not leave out. */
  lemma FinishedIsComplete(g: Grammar, info: Info, lr: LrGraph)
    requires Finished(g, info, lr) && InfoExact(g, info)
    ensures AutomatonCompleteBut(g, ToAutomaton(lr), info.forbid)
  {
    var a := ToAutomaton(lr);
    assert Item(0, 0) in lr.sets[START].kernel;
    forall s: nat, it: Item, q: nat ensures ClosureComplete(g, a, info.forbid, s, it, q) {
      ClosureCompleteIn(g, info, lr, s, it, q);
    }
    forall s: nat, it: Item ensures GotoComplete(g, a, s, it) {
      GotoCompleteIn(g, info, lr, s, it);
    }
  }

  lemma ClosureCompleteIn(g: Grammar, info: Info, lr: LrGraph, s: nat, it: Item, q: nat)
    requires Finished(g, info, lr) && InfoExact(g, info)
    ensures ClosureComplete(g, ToAutomaton(lr), info.forbid, s, it, q)
  {
    if s < |lr.sets| && it in All(lr.sets[s]) && Wants(g, it, q) && ItemIn(g, it) {
      var all := All(lr.sets[s]);
      ClosedInAll(g, info, lr.sets[s], s == START);
      assert Given(g, info, it, all[it], all) && GivenTo(g, info, it, all[it], all, q);
      var rest := g.prods[it.prod].rhs[it.dot + 1..];
      forall t: nat | MayFollow(g, rest, all[it], t) && !Forbidden(info.forbid, q, t) ensures t in all[Item(q, 0)] {
        FollowGiven(g, info, it, all[it], q, t);
      }
    }
  }

  lemma GotoCompleteIn(g: Grammar, info: Info, lr: LrGraph, s: nat, it: Item)
    requires Finished(g, info, lr)
    ensures GotoComplete(g, ToAutomaton(lr), s, it)
  {
    if s < |lr.sets| && it in All(lr.sets[s]) && AfterDot(g, it).Some? {
      var x := AfterDot(g, it).value;
      assert Beta(it) in MovedCore(g, All(lr.sets[s]).Keys, x);
      assert SymDone(g, lr, s, x);
      TargetIsNotStart(g, info, lr, s, x);
      var u := lr.trans[(s, x)];
      AllParts(g, info, lr.sets[u], u == START);
      assert MovedItems(g, All(lr.sets[s]), x)[Beta(it)] == All(lr.sets[s])[it];
    }
  }

  // ---------------------------------------------------------------- forbidden lookaheads

  /** The items without the lookaheads that forbid their productions. */
  ghost function Allowed(forbid: map<nat, set<nat>>, items: Items): Items {
    map it | it in items :: items[it] - (if it.prod in forbid then forbid[it.prod] else {})
  }

  ghost predicate NoneForbidden(forbid: map<nat, set<nat>>, items: Items) {
    forall it, t: nat :: it in items && t in items[it] ==> !Forbidden(forbid, it.prod, t)
  }

  lemma AllowedGiven(g: Grammar, info: Info, it: Item, la: set<nat>, la': set<nat>, nk: Items)
    requires Given(g, info, it, la, nk) && la' <= la
    ensures Given(g, info, it, la', Allowed(info.forbid, nk))
  {
    forall q: nat ensures GivenTo(g, info, it, la', Allowed(info.forbid, nk), q) {
      assert GivenTo(g, info, it, la, nk, q);
    }
  }

  /** In a closed item set no production has a lookahead that forbids it. */
  lemma ClosureForbids(g: Grammar, info: Info, kernel: Items, nk: Items)
    requires IsClosure(g, info, kernel, nk)
    ensures NoneForbidden(info.forbid, nk)
  {
    var allowed := Allowed(info.forbid, nk);
    forall it | it in kernel ensures Given(g, info, it, kernel[it], allowed) {
      AllowedGiven(g, info, it, kernel[it], kernel[it], nk);
    }
    forall it | it in allowed ensures Given(g, info, it, allowed[it], allowed) {
      AllowedGiven(g, info, it, nk[it], allowed[it], nk);
    }
    assert Below(nk, allowed);
  }

  /** Nor has it one in any state, however far the dot has moved. */
  lemma StatesForbid(g: Grammar, info: Info, lr: LrGraph, s: nat)
    requires Finished(g, info, lr) && s < |lr.sets|
    ensures NoneForbidden(info.forbid, ToAutomaton(lr).items[s])
  {
    LookaheadsAreLeastFixpoint(g, info, lr);
    var items := ToAutomaton(lr).items;
    var fam := seq(|items|, u requires 0 <= u < |items| => Allowed(info.forbid, items[u]));
    AllowedFamily(g, info, lr.trans, items, fam);
    assert InFamily(lr.sets, fam) && Below(All(lr.sets[s]), fam[s]);
  }

  lemma AllowedFamily(g: Grammar, info: Info, trans: map<(nat, Symbol), nat>, items: seq<Items>, fam: seq<Items>)
    requires FamilyClosed(g, info, trans, items) && |fam| == |items|
    requires forall u: nat :: u < |fam| ==> fam[u] == Allowed(info.forbid, items[u])
    ensures FamilyClosed(g, info, trans, fam)
  {
    forall u: nat | u < |fam| ensures ClosedFrom(g, info, fam[u], fam[u]) {
      forall it | it in fam[u] ensures Given(g, info, it, fam[u][it], fam[u]) {
        AllowedGiven(g, info, it, items[u][it], fam[u][it], items[u]);
      }
    }
    forall u: nat, x: Symbol ensures FamilyMoves(g, trans, fam, u, x) {
      assert FamilyMoves(g, trans, items, u, x);
    }
  }

  /** What an item gives to a production: First of the rest, and its own lookahead if the rest vanishes, but
      nothing that forbids the production. */
  lemma GivesExactly(g: Grammar, info: Info, it: Item, la: set<nat>, q: nat, t: nat)
    requires InfoExact(g, info) && ItemIn(g, it) && it.dot < |g.prods[it.prod].rhs|
    ensures var rest := g.prods[it.prod].rhs[it.dot + 1..];
            t in Gives(info, it, la, q) <==>
            (InFirst(g, rest, t) || (Rewrites(g, rest, []) && t in la)) && !(q in info.forbid && t in info.forbid[q])
  {
    assert InfoExactAt(g, info, Beta(it));
  }

  /** Every state offers each production it asks for all terminals that may follow and do not forbid it. */
  lemma NothingElseForbidden(g: Grammar, info: Info, lr: LrGraph, s: nat, it: Item, q: nat, t: nat)
    requires Finished(g, info, lr) && InfoExact(g, info) && s < |lr.sets| && it in All(lr.sets[s])
    requires ItemIn(g, it) && q < |g.prods| && AfterDot(g, it) == Some(N(g.prods[q].lhs))
    requires var rest := g.prods[it.prod].rhs[it.dot + 1..];
             InFirst(g, rest, t) || (Rewrites(g, rest, []) && t in All(lr.sets[s])[it])
    requires !(q in info.forbid && t in info.forbid[q])
    ensures Item(q, 0) in All(lr.sets[s]) && t in All(lr.sets[s])[Item(q, 0)]
  {
    var all := All(lr.sets[s]);
    ClosedInAll(g, info, lr.sets[s], s == START);
    assert Given(g, info, it, all[it], all) && GivenTo(g, info, it, all[it], all, q);
    GivesExactly(g, info, it, all[it], q, t);
  }
}
