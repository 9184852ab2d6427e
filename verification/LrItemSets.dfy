/** The graph of LR item sets under construction, as a value, and what every step keeps. */
module LrItemSets {
  import opened Grammars
  import opened LrMachine
  import opened Acceptance
  import opened Language
  import opened ItemClosure

  datatype ItemSet = ItemSet(kernel: Items, nonkernel: Items)

  datatype LrGraph = LrGraph(sets: seq<ItemSet>, trans: map<(nat, Symbol), nat>)

  function All(s: ItemSet): Items {
    s.nonkernel + s.kernel
  }

  function MovedCore(g: Grammar, core: set<Item>, x: Symbol): set<Item> {
    set it | it in core && AfterDot(g, it) == Some(x) :: Beta(it)
  }

  /** The dot moved over `x` in every item that allows it, lookaheads unchanged. */
  function MovedItems(g: Grammar, src: Items, x: Symbol): Items {
    map it | it in MovedCore(g, src.Keys, x) :: src[Item(it.prod, it.dot - 1)]
  }

  lemma MovedBack(g: Grammar, core: set<Item>, x: Symbol, it: Item)
    ensures it in MovedCore(g, core, x) <==>
            it.dot > 0 && Item(it.prod, it.dot - 1) in core && AfterDot(g, Item(it.prod, it.dot - 1)) == Some(x)
  {
    if it.dot > 0 {
      assert Beta(Item(it.prod, it.dot - 1)) == it;
    }
  }

  lemma MovedGrows(g: Grammar, a: Items, b: Items, x: Symbol)
    requires Below(a, b)
    ensures Below(MovedItems(g, a, x), MovedItems(g, b, x))
  {
    forall it | it in MovedItems(g, a, x)
      ensures it in MovedItems(g, b, x) && MovedItems(g, a, x)[it] <= MovedItems(g, b, x)[it]
    {
      MovedBack(g, a.Keys, x, it);
      MovedBack(g, b.Keys, x, it);
    }
  }

  lemma BelowTrans(a: Items, b: Items, c: Items)
    requires Below(a, b) && Below(b, c)
    ensures Below(a, c)
  {
  }

  // ---------------------------------------------------------------- one item set

  ghost predicate UpToDate(g: Grammar, info: Info, s: ItemSet) {
    IsClosure(g, info, s.kernel, s.nonkernel)
  }

  ghost predicate ClosureOfLess(g: Grammar, info: Info, s: ItemSet, k: Items) {
    IsClosure(g, info, k, s.nonkernel) && k.Keys == s.kernel.Keys && Below(k, s.kernel)
  }

  /** The nonkernel items are those of the same core, for the present lookaheads or earlier ones. */
  ghost predicate OnceClosed(g: Grammar, info: Info, s: ItemSet) {
    exists k :: ClosureOfLess(g, info, s, k)
  }

  ghost predicate KernelItemOK(g: Grammar, s: ItemSet, first: bool, it: Item) {
    it in s.kernel ==>
      && ItemIn(g, it) && Terminals(g, s.kernel[it])
      && (first ==> it == Item(0, 0)) && (!first ==> it.dot > 0)
      && (it.prod == 0 ==> s.kernel[it] == {})
  }

  ghost predicate ItemSetOK(g: Grammar, info: Info, s: ItemSet, first: bool) {
    && (forall it :: KernelItemOK(g, s, first, it))
    && (first ==> Item(0, 0) in s.kernel)
    && InGrammar(g, s.nonkernel) && OnceClosed(g, info, s)
  }

  /** An item that nothing asks for would not be in the least closed set. */
  lemma ClosureItemWanted(g: Grammar, info: Info, kernel: Items, nk: Items, it: Item) returns (asker: Item)
    requires IsClosure(g, info, kernel, nk) && InGrammar(g, nk) && it in nk
    ensures (asker in kernel || asker in nk) && Wants(g, asker, it.prod)
  {
    if x :| (x in kernel || x in nk) && Wants(g, x, it.prod) {
      asker := x;
    } else {
      UnwantedIsUnneeded(g, info, kernel, nk, it);
      assert false;
    }
  }

  lemma UnwantedIsUnneeded(g: Grammar, info: Info, kernel: Items, nk: Items, it: Item)
    requires Closed(g, info, kernel, nk) && InGrammar(g, nk) && it in nk
    requires forall x :: x in kernel || x in nk ==> !Wants(g, x, it.prod)
    ensures Closed(g, info, kernel, nk - {it}) && !Below(nk, nk - {it})
  {
    var less := nk - {it};
    forall x, la: set<nat> | Given(g, info, x, la, nk) && !Wants(g, x, it.prod) ensures Given(g, info, x, la, less) {
      forall q: nat ensures GivenTo(g, info, x, la, less, q) {
        assert GivenTo(g, info, x, la, nk, q);
      }
    }
    assert ClosedFrom(g, info, kernel, less);
    assert ClosedFrom(g, info, less, less);
  }

  /** Which items the closure has does not depend on lookaheads. */
  lemma SameCoreSameItems(g: Grammar, info: Info, k1: Items, n1: Items, k2: Items, n2: Items)
    requires IsClosure(g, info, k1, n1) && IsClosure(g, info, k2, n2) && k1.Keys == k2.Keys
    ensures n1.Keys == n2.Keys
  {
    ItemsWithin(g, info, k1, n1, k2, n2);
    ItemsWithin(g, info, k2, n2, k1, n1);
  }

  lemma ItemsWithin(g: Grammar, info: Info, k1: Items, n1: Items, k2: Items, n2: Items)
    requires IsClosure(g, info, k1, n1) && IsClosure(g, info, k2, n2) && k1.Keys == k2.Keys
    ensures n1.Keys <= n2.Keys
  {
    var most := Most(info, k1, n2.Keys);
    forall it, la: set<nat> | it in k1 || it in n2
      ensures (it in k1 && la == k1[it]) || (it in most && la == most[it]) ==> Given(g, info, it, la, most)
    {
      forall q: nat
        ensures (it in k1 && la == k1[it]) || (it in most && la == most[it]) ==> GivenTo(g, info, it, la, most, q)
      {
        if it in k2 {
          assert Given(g, info, it, k2[it], n2) && GivenTo(g, info, it, k2[it], n2, q);
        } else {
          assert Given(g, info, it, n2[it], n2) && GivenTo(g, info, it, n2[it], n2, q);
        }
        MostHas(g, info, k1, n2.Keys, it, la, q);
      }
    }
    assert ClosedFrom(g, info, k1, most) && ClosedFrom(g, info, most, most);
    assert Below(n1, most);
  }

  /** All terminals that could come up, on every item of `core`. */
  ghost function Most(info: Info, k: Items, core: set<Item>): Items {
    map it | it in core :: AllLookaheads(info, k)
  }

  ghost function AllLookaheads(info: Info, k: Items): set<nat> {
    (set it, t | it in k && t in k[it] :: t) + (set it, t | it in info.first && t in info.first[it] :: t)
  }

  lemma MostHas(g: Grammar, info: Info, k: Items, core: set<Item>, it: Item, la: set<nat>, q: nat)
    requires Wants(g, it, q) ==> Item(q, 0) in core
    ensures (it in k && la == k[it]) || (it in Most(info, k, core) && la == Most(info, k, core)[it]) ==>
              GivenTo(g, info, it, la, Most(info, k, core), q)
  {
    if (it in k && la == k[it]) || (it in Most(info, k, core) && la == Most(info, k, core)[it]) {
      assert la <= AllLookaheads(info, k);
      if Beta(it) in info.first {
        assert info.first[Beta(it)] <= AllLookaheads(info, k);
      }
    }
  }

  /** Production 0 is never asked for, so no nonkernel item is one of its items. */
  lemma NonkernelItem(g: Grammar, info: Info, s: ItemSet, first: bool, it: Item) returns (asker: Item)
    requires ItemSetOK(g, info, s, first) && NoStart(g) && it in s.nonkernel
    ensures it !in s.kernel && ItemIn(g, it) && it.prod > 0 && it.dot == 0
    ensures asker in All(s) && Wants(g, asker, it.prod)
  {
    var k :| ClosureOfLess(g, info, s, k);
    asker := ClosureItemWanted(g, info, k, s.nonkernel, it);
    assert KernelItemOK(g, s, first, asker) && KernelItemOK(g, s, first, it);
    assert g.prods[asker.prod].rhs[asker.dot] == N(g.prods[it.prod].lhs);
  }

  lemma AllParts(g: Grammar, info: Info, s: ItemSet, first: bool)
    requires ItemSetOK(g, info, s, first) && NoStart(g)
    ensures s.kernel.Keys !! s.nonkernel.Keys
    ensures forall it :: it in All(s) ==> All(s)[it] == if it in s.kernel then s.kernel[it] else s.nonkernel[it]
    ensures forall it :: it in All(s) ==>
              ItemIn(g, it) && Terminals(g, All(s)[it]) && (it.prod == 0 ==> All(s)[it] == {})
  {
    forall it | it in s.nonkernel ensures it !in s.kernel && it.prod > 0 && ItemIn(g, it) {
      var asker := NonkernelItem(g, info, s, first, it);
    }
    forall it | it in s.kernel
      ensures ItemIn(g, it) && Terminals(g, s.kernel[it]) && (it.prod == 0 ==> s.kernel[it] == {})
    {
      assert KernelItemOK(g, s, first, it);
    }
  }

  // ---------------------------------------------------------------- the graph

  /** A family of item sets that closure and transitions add nothing to. */
  ghost predicate FamilyClosed(g: Grammar, info: Info, trans: map<(nat, Symbol), nat>, fam: seq<Items>) {
    && fam != [] && Item(0, 0) in fam[START]
    && (forall s: nat :: s < |fam| ==> ClosedFrom(g, info, fam[s], fam[s]))
    && (forall s: nat, x: Symbol :: FamilyMoves(g, trans, fam, s, x))
  }

  ghost predicate FamilyMoves(g: Grammar, trans: map<(nat, Symbol), nat>, fam: seq<Items>, s: nat, x: Symbol) {
    (s, x) in trans ==> s < |fam| && trans[(s, x)] < |fam| && Below(MovedItems(g, fam[s], x), fam[trans[(s, x)]])
  }

  ghost predicate InFamily(sets: seq<ItemSet>, fam: seq<Items>) {
    |sets| <= |fam| && forall s: nat :: s < |sets| ==> Below(All(sets[s]), fam[s])
  }

  /** No item and no lookahead that the closed families do not all have. */
  ghost predicate Least(g: Grammar, info: Info, lr: LrGraph) {
    forall fam :: FamilyClosed(g, info, lr.trans, fam) ==> InFamily(lr.sets, fam)
  }

  ghost predicate DistinctCores(sets: seq<ItemSet>) {
    forall s: nat, u: nat :: s < u < |sets| ==> sets[s].kernel.Keys != sets[u].kernel.Keys
  }

  ghost predicate SetsOK(g: Grammar, info: Info, sets: seq<ItemSet>) {
    |sets| > START && forall s: nat :: s < |sets| ==> ItemSetOK(g, info, sets[s], s == START)
  }

  /** A transition leads to the state with exactly the moved core. */
  ghost predicate TransOK(g: Grammar, lr: LrGraph, s: nat, x: Symbol) {
    (s, x) in lr.trans ==>
      && s < |lr.sets| && lr.trans[(s, x)] < |lr.sets|
      && lr.sets[lr.trans[(s, x)]].kernel.Keys == MovedCore(g, All(lr.sets[s]).Keys, x) != {}
  }

  ghost predicate TransitionsOK(g: Grammar, lr: LrGraph) {
    forall s: nat, x: Symbol :: TransOK(g, lr, s, x)
  }

  ghost predicate EnteredIn(lr: LrGraph, s: nat) {
    exists from: nat, x: Symbol :: (from, x) in lr.trans && lr.trans[(from, x)] == s
  }

  ghost predicate AllEntered(lr: LrGraph) {
    forall s: nat :: START < s < |lr.sets| ==> EnteredIn(lr, s)
  }

  ghost predicate Built(g: Grammar, info: Info, lr: LrGraph) {
    && NoStart(g) && InfoInGrammar(g, info) && SetsOK(g, info, lr.sets) && DistinctCores(lr.sets)
    && TransitionsOK(g, lr) && AllEntered(lr) && Least(g, info, lr)
  }

  /** The transition on `x` carries all lookaheads. */
  ghost predicate SymDone(g: Grammar, lr: LrGraph, s: nat, x: Symbol) {
    s < |lr.sets| && MovedCore(g, All(lr.sets[s]).Keys, x) != {} ==>
      && (s, x) in lr.trans && lr.trans[(s, x)] < |lr.sets|
      && Below(MovedItems(g, All(lr.sets[s]), x), lr.sets[lr.trans[(s, x)]].kernel)
  }

  /** Same cores, more lookaheads. */
  ghost predicate SetGrew(a: ItemSet, b: ItemSet) {
    && a.kernel.Keys == b.kernel.Keys && a.nonkernel.Keys == b.nonkernel.Keys
    && Below(a.kernel, b.kernel) && Below(a.nonkernel, b.nonkernel)
  }

  lemma GrewAll(a: ItemSet, b: ItemSet)
    requires SetGrew(a, b) && a.kernel.Keys !! a.nonkernel.Keys
    ensures All(a).Keys == All(b).Keys && Below(All(a), All(b))
  {
  }

  lemma ClosureInFamily(g: Grammar, info: Info, s: ItemSet, f: Items)
    requires UpToDate(g, info, s) && Below(s.kernel, f) && ClosedFrom(g, info, f, f)
    ensures Below(All(s), f)
  {
    forall it | it in s.kernel ensures Given(g, info, it, s.kernel[it], f) {
      GivenShrinks(g, info, it, s.kernel[it], f[it], f);
    }
    assert Closed(g, info, s.kernel, f);
  }

  // ---------------------------------------------------------------- the start

  lemma StartBuilt(g: Grammar, info: Info, start: ItemSet)
    requires NoStart(g) && InfoInGrammar(g, info) && start.kernel == map[Item(0, 0) := {}]
    requires UpToDate(g, info, start) && InGrammar(g, start.nonkernel)
    ensures Built(g, info, LrGraph([start], map[]))
  {
    assert ClosureOfLess(g, info, start, start.kernel);
    forall it ensures KernelItemOK(g, start, true, it) {
    }
    forall fam | FamilyClosed(g, info, map[], fam) ensures InFamily([start], fam) {
      ClosureInFamily(g, info, start, fam[START]);
    }
  }

  // ---------------------------------------------------------------- one transition

  ghost predicate MovedOK(g: Grammar, moved: Items) {
    forall it :: it in moved ==>
      ItemIn(g, it) && it.dot > 0 && Terminals(g, moved[it]) && (it.prod == 0 ==> moved[it] == {})
  }

  lemma MovedIsOK(g: Grammar, info: Info, s: ItemSet, first: bool, x: Symbol)
    requires ItemSetOK(g, info, s, first) && NoStart(g)
    ensures MovedOK(g, MovedItems(g, All(s), x))
  {
    AllParts(g, info, s, first);
    forall it | it in MovedItems(g, All(s), x) ensures it.dot > 0 && Item(it.prod, it.dot - 1) in All(s) {
      MovedBack(g, All(s).Keys, x, it);
    }
  }

  lemma MovedElsewhere(g: Grammar, info: Info, s: ItemSet, first: bool, moved: Items)
    requires ItemSetOK(g, info, s, first) && MovedOK(g, moved) && s.kernel.Keys == moved.Keys != {}
    ensures !first
  {
    var it :| it in moved;
    assert KernelItemOK(g, s, first, it);
  }

  /** A second visit finds the state that the first one made. */
  lemma SameTarget(g: Grammar, lr: LrGraph, s: nat, x: Symbol, u: nat)
    requires DistinctCores(lr.sets) && TransOK(g, lr, s, x) && s < |lr.sets| && u < |lr.sets|
    requires lr.sets[u].kernel.Keys == MovedCore(g, All(lr.sets[s]).Keys, x) != {}
    ensures (s, x) in lr.trans ==> lr.trans[(s, x)] == u
  {
  }

  lemma FamilyBefore(g: Grammar, info: Info, trans: map<(nat, Symbol), nat>, s: nat, x: Symbol, u: nat, fam: seq<Items>)
    requires (s, x) in trans ==> trans[(s, x)] == u
    requires FamilyClosed(g, info, trans[(s, x) := u], fam)
    ensures FamilyClosed(g, info, trans, fam) && FamilyMoves(g, trans[(s, x) := u], fam, s, x)
  {
    forall r: nat, y: Symbol ensures FamilyMoves(g, trans, fam, r, y) {
      assert FamilyMoves(g, trans[(s, x) := u], fam, r, y);
    }
  }

  /** `made` is `was` with the lookaheads of `moved` merged into its kernel; its closure may be put off. */
  ghost predicate Merged(g: Grammar, info: Info, was: ItemSet, moved: Items, made: ItemSet) {
    && made.kernel.Keys == was.kernel.Keys == moved.Keys
    && (forall it :: it in moved ==> made.kernel[it] == was.kernel[it] + moved[it])
    && (UpToDate(g, info, made) || made.nonkernel == was.nonkernel)
    && SetGrew(was, made) && InGrammar(g, made.nonkernel)
  }

  /** Lookaheads flow along a transition into an existing state. */
  lemma MergeBuilt(g: Grammar, info: Info, lr: LrGraph, s: nat, x: Symbol, u: nat, moved: Items, made: ItemSet)
    requires Built(g, info, lr) && s < |lr.sets| && u < |lr.sets| && MovedOK(g, moved) && moved.Keys != {}
    requires moved == MovedItems(g, All(lr.sets[s]), x) && Merged(g, info, lr.sets[u], moved, made)
    ensures Built(g, info, LrGraph(lr.sets[u := made], lr.trans[(s, x) := u]))
  {
    MergeSets(g, info, lr.sets, u, moved, made);
    MergeGraph(g, info, lr, s, x, u, moved, made);
  }

  lemma MergeSets(g: Grammar, info: Info, sets: seq<ItemSet>, u: nat, moved: Items, made: ItemSet)
    requires NoStart(g) && SetsOK(g, info, sets) && DistinctCores(sets) && u < |sets|
    requires MovedOK(g, moved) && moved.Keys != {} && Merged(g, info, sets[u], moved, made)
    ensures SetsOK(g, info, sets[u := made]) && DistinctCores(sets[u := made])
    ensures sets[u].kernel.Keys !! sets[u].nonkernel.Keys
  {
    TargetSetOK(g, info, moved, sets[u], u == START, made);
    KeepsSets(g, info, sets, u, made);
  }

  lemma MergeGraph(g: Grammar, info: Info, lr: LrGraph, s: nat, x: Symbol, u: nat, moved: Items, made: ItemSet)
    requires DistinctCores(lr.sets) && TransitionsOK(g, lr) && AllEntered(lr) && Least(g, info, lr)
    requires s < |lr.sets| && u < |lr.sets| && moved.Keys != {} && lr.sets[u].kernel.Keys !! lr.sets[u].nonkernel.Keys
    requires moved == MovedItems(g, All(lr.sets[s]), x) && Merged(g, info, lr.sets[u], moved, made)
    ensures var lr' := LrGraph(lr.sets[u := made], lr.trans[(s, x) := u]);
            TransitionsOK(g, lr') && AllEntered(lr') && Least(g, info, lr')
  {
    assert TransOK(g, lr, s, x);
    SameTarget(g, lr, s, x, u);
    KeepsTransitions(g, lr, s, x, u, made);
    KeepsEntered(lr, s, x, u, made);
    KeepsLeast(g, info, lr, s, x, u, made);
  }

  lemma TargetSetOK(g: Grammar, info: Info, moved: Items, was: ItemSet, first: bool, made: ItemSet)
    requires NoStart(g) && ItemSetOK(g, info, was, first) && MovedOK(g, moved)
    requires Merged(g, info, was, moved, made) && moved.Keys != {}
    ensures ItemSetOK(g, info, made, first) && was.kernel.Keys !! was.nonkernel.Keys
  {
    Disjoint(g, info, was, first);
    MovedElsewhere(g, info, was, first, moved);
    MergedSetOK(g, info, was, moved, made);
  }

  lemma Disjoint(g: Grammar, info: Info, s: ItemSet, first: bool)
    requires ItemSetOK(g, info, s, first) && NoStart(g)
    ensures s.kernel.Keys !! s.nonkernel.Keys
  {
    forall it | it in s.nonkernel ensures it !in s.kernel {
      var asker := NonkernelItem(g, info, s, first, it);
    }
  }

  lemma MergedSetOK(g: Grammar, info: Info, was: ItemSet, moved: Items, made: ItemSet)
    requires ItemSetOK(g, info, was, false) && MovedOK(g, moved) && Merged(g, info, was, moved, made)
    ensures ItemSetOK(g, info, made, false)
  {
    forall it ensures KernelItemOK(g, made, false, it) {
      assert KernelItemOK(g, was, false, it);
    }
    if UpToDate(g, info, made) {
      assert ClosureOfLess(g, info, made, made.kernel);
    } else {
      var k :| ClosureOfLess(g, info, was, k);
      BelowTrans(k, was.kernel, made.kernel);
      assert ClosureOfLess(g, info, made, k);
    }
  }

  lemma KeepsSets(g: Grammar, info: Info, sets: seq<ItemSet>, u: nat, made: ItemSet)
    requires SetsOK(g, info, sets) && DistinctCores(sets) && u < |sets|
    requires ItemSetOK(g, info, made, u == START) && made.kernel.Keys == sets[u].kernel.Keys
    ensures SetsOK(g, info, sets[u := made]) && DistinctCores(sets[u := made])
  {
  }

  lemma KeepsTransitions(g: Grammar, lr: LrGraph, s: nat, x: Symbol, u: nat, made: ItemSet)
    requires TransitionsOK(g, lr) && s < |lr.sets| && u < |lr.sets|
    requires SetGrew(lr.sets[u], made) && lr.sets[u].kernel.Keys !! lr.sets[u].nonkernel.Keys
    requires lr.sets[u].kernel.Keys == MovedCore(g, All(lr.sets[s]).Keys, x) != {}
    ensures TransitionsOK(g, LrGraph(lr.sets[u := made], lr.trans[(s, x) := u]))
  {
    GrewAll(lr.sets[u], made);
    var lr' := LrGraph(lr.sets[u := made], lr.trans[(s, x) := u]);
    forall r: nat, y: Symbol ensures TransOK(g, lr', r, y) {
      assert TransOK(g, lr, r, y);
    }
  }

  lemma KeepsEntered(lr: LrGraph, s: nat, x: Symbol, u: nat, made: ItemSet)
    requires AllEntered(lr) && u < |lr.sets| && ((s, x) in lr.trans ==> lr.trans[(s, x)] == u)
    ensures AllEntered(LrGraph(lr.sets[u := made], lr.trans[(s, x) := u]))
  {
    var lr' := LrGraph(lr.sets[u := made], lr.trans[(s, x) := u]);
    forall r: nat | START < r < |lr'.sets| ensures EnteredIn(lr', r) {
      assert EnteredIn(lr, r);
      var from: nat, y: Symbol :| (from, y) in lr.trans && lr.trans[(from, y)] == r;
      assert (from, y) in lr'.trans && lr'.trans[(from, y)] == r;
    }
  }

  lemma KeepsLeast(g: Grammar, info: Info, lr: LrGraph, s: nat, x: Symbol, u: nat, made: ItemSet)
    requires Least(g, info, lr) && s < |lr.sets| && u < |lr.sets| && ((s, x) in lr.trans ==> lr.trans[(s, x)] == u)
    requires Merged(g, info, lr.sets[u], MovedItems(g, All(lr.sets[s]), x), made)
    requires lr.sets[u].kernel.Keys !! lr.sets[u].nonkernel.Keys
    ensures Least(g, info, LrGraph(lr.sets[u := made], lr.trans[(s, x) := u]))
  {
    var lr' := LrGraph(lr.sets[u := made], lr.trans[(s, x) := u]);
    forall fam | FamilyClosed(g, info, lr'.trans, fam) ensures InFamily(lr'.sets, fam) {
      FamilyBefore(g, info, lr.trans, s, x, u, fam);
      FamilyKeeps(g, info, lr, s, x, u, made, fam);
    }
  }

  lemma FamilyKeeps(g: Grammar, info: Info, lr: LrGraph, s: nat, x: Symbol, u: nat, made: ItemSet, fam: seq<Items>)
    requires InFamily(lr.sets, fam) && s < |lr.sets| && u < |lr.sets| && ClosedFrom(g, info, fam[u], fam[u])
    requires Below(MovedItems(g, fam[s], x), fam[u]) && lr.sets[u].kernel.Keys !! lr.sets[u].nonkernel.Keys
    requires Merged(g, info, lr.sets[u], MovedItems(g, All(lr.sets[s]), x), made)
    ensures InFamily(lr.sets[u := made], fam)
  {
    MovedGrows(g, All(lr.sets[s]), fam[s], x);
    MergedInFamily(g, info, lr.sets[u], MovedItems(g, All(lr.sets[s]), x), MovedItems(g, fam[s], x), made, fam[u]);
  }

  lemma MergedInFamily(g: Grammar, info: Info, was: ItemSet, moved: Items, moved': Items, made: ItemSet, f: Items)
    requires Merged(g, info, was, moved, made) && was.kernel.Keys !! was.nonkernel.Keys
    requires Below(All(was), f) && Below(moved, moved') && Below(moved', f) && ClosedFrom(g, info, f, f)
    ensures Below(All(made), f)
  {
    forall it | it in made.kernel ensures it in f && made.kernel[it] <= f[it] {
      assert it in All(was) && it in moved;
    }
    if UpToDate(g, info, made) {
      ClosureInFamily(g, info, made, f);
    } else {
      forall it | it in made.nonkernel ensures it in f && made.nonkernel[it] <= f[it] {
        assert it in All(was);
      }
    }
  }

  /** A transition to a core that is new. */
  lemma NewBuilt(g: Grammar, info: Info, lr: LrGraph, s: nat, x: Symbol, made: ItemSet)
    requires Built(g, info, lr) && s < |lr.sets| && made.kernel == MovedItems(g, All(lr.sets[s]), x) != map[]
    requires forall u: nat :: u < |lr.sets| ==> lr.sets[u].kernel.Keys != made.kernel.Keys
    requires UpToDate(g, info, made) && InGrammar(g, made.nonkernel)
    ensures Built(g, info, LrGraph(lr.sets + [made], lr.trans[(s, x) := |lr.sets|]))
  {
    NoTransitionYet(g, lr, s, x, made);
    AddsSet(g, info, lr.sets, s, x, made);
    AddsTransition(g, lr, s, x, made);
    AddsEntered(lr, s, x, made);
    AddsLeast(g, info, lr, s, x, made);
  }

  lemma NoTransitionYet(g: Grammar, lr: LrGraph, s: nat, x: Symbol, made: ItemSet)
    requires TransitionsOK(g, lr) && s < |lr.sets| && made.kernel == MovedItems(g, All(lr.sets[s]), x) != map[]
    requires forall u: nat :: u < |lr.sets| ==> lr.sets[u].kernel.Keys != made.kernel.Keys
    ensures made.kernel.Keys == MovedCore(g, All(lr.sets[s]).Keys, x) != {} && (s, x) !in lr.trans
  {
    assert made.kernel.Keys == MovedCore(g, All(lr.sets[s]).Keys, x);
    assert TransOK(g, lr, s, x);
  }

  lemma AddsSet(g: Grammar, info: Info, sets: seq<ItemSet>, s: nat, x: Symbol, made: ItemSet)
    requires NoStart(g) && SetsOK(g, info, sets) && DistinctCores(sets)
    requires s < |sets| && made.kernel == MovedItems(g, All(sets[s]), x)
    requires forall u: nat :: u < |sets| ==> sets[u].kernel.Keys != made.kernel.Keys
    requires UpToDate(g, info, made) && InGrammar(g, made.nonkernel)
    ensures SetsOK(g, info, sets + [made]) && DistinctCores(sets + [made])
  {
    NewSetOK(g, info, sets[s], s == START, x, made);
    OneSetMore(g, info, sets, made);
  }

  lemma OneSetMore(g: Grammar, info: Info, sets: seq<ItemSet>, made: ItemSet)
    requires SetsOK(g, info, sets) && ItemSetOK(g, info, made, false) && DistinctCores(sets) && sets != []
    requires forall u: nat :: u < |sets| ==> sets[u].kernel.Keys != made.kernel.Keys
    ensures SetsOK(g, info, sets + [made]) && DistinctCores(sets + [made])
  {
  }

  lemma NewSetOK(g: Grammar, info: Info, from: ItemSet, first: bool, x: Symbol, made: ItemSet)
    requires ItemSetOK(g, info, from, first) && NoStart(g) && made.kernel == MovedItems(g, All(from), x)
    requires UpToDate(g, info, made) && InGrammar(g, made.nonkernel)
    ensures ItemSetOK(g, info, made, false)
  {
    MovedIsOK(g, info, from, first, x);
    forall it ensures KernelItemOK(g, made, false, it) {
    }
    assert ClosureOfLess(g, info, made, made.kernel);
  }

  lemma AddsTransition(g: Grammar, lr: LrGraph, s: nat, x: Symbol, made: ItemSet)
    requires TransitionsOK(g, lr) && s < |lr.sets| && made.kernel.Keys == MovedCore(g, All(lr.sets[s]).Keys, x) != {}
    ensures TransitionsOK(g, LrGraph(lr.sets + [made], lr.trans[(s, x) := |lr.sets|]))
  {
    var lr' := LrGraph(lr.sets + [made], lr.trans[(s, x) := |lr.sets|]);
    forall r: nat, y: Symbol ensures TransOK(g, lr', r, y) {
      assert TransOK(g, lr, r, y);
    }
  }

  lemma AddsEntered(lr: LrGraph, s: nat, x: Symbol, made: ItemSet)
    requires AllEntered(lr) && (s, x) !in lr.trans
    ensures AllEntered(LrGraph(lr.sets + [made], lr.trans[(s, x) := |lr.sets|]))
  {
    var lr' := LrGraph(lr.sets + [made], lr.trans[(s, x) := |lr.sets|]);
    forall r: nat | START < r < |lr'.sets| ensures EnteredIn(lr', r) {
      if r < |lr.sets| {
        assert EnteredIn(lr, r);
        var from: nat, y: Symbol :| (from, y) in lr.trans && lr.trans[(from, y)] == r;
        assert (from, y) in lr'.trans && lr'.trans[(from, y)] == r;
      } else {
        assert (s, x) in lr'.trans && lr'.trans[(s, x)] == r;
      }
    }
  }

  lemma AddsLeast(g: Grammar, info: Info, lr: LrGraph, s: nat, x: Symbol, made: ItemSet)
    requires Least(g, info, lr) && s < |lr.sets| && (s, x) !in lr.trans
    requires made.kernel == MovedItems(g, All(lr.sets[s]), x) && UpToDate(g, info, made)
    ensures Least(g, info, LrGraph(lr.sets + [made], lr.trans[(s, x) := |lr.sets|]))
  {
    var u := |lr.sets|;
    var lr' := LrGraph(lr.sets + [made], lr.trans[(s, x) := u]);
    forall fam | FamilyClosed(g, info, lr'.trans, fam) ensures InFamily(lr'.sets, fam) {
      FamilyBefore(g, info, lr.trans, s, x, u, fam);
      assert InFamily(lr.sets, fam);
      MovedGrows(g, All(lr.sets[s]), fam[s], x);
      BelowTrans(made.kernel, MovedItems(g, fam[s], x), fam[u]);
      ClosureInFamily(g, info, made, fam[u]);
    }
  }

  /** The closure that was put off. */
  lemma RecloseBuilt(g: Grammar, info: Info, lr: LrGraph, s: nat, made: ItemSet)
    requires Built(g, info, lr) && s < |lr.sets| && made.kernel == lr.sets[s].kernel
    requires UpToDate(g, info, made) && InGrammar(g, made.nonkernel) && Below(lr.sets[s].nonkernel, made.nonkernel)
    ensures SetGrew(lr.sets[s], made) && Built(g, info, lr.(sets := lr.sets[s := made]))
  {
    ReclosedSetOK(g, info, lr.sets[s], made, s == START);
    Disjoint(g, info, lr.sets[s], s == START);
    KeepsSets(g, info, lr.sets, s, made);
    ReclosedTransitions(g, lr, s, made);
    ReclosedLeast(g, info, lr, s, made);
    var lr' := lr.(sets := lr.sets[s := made]);
    forall r: nat | START < r < |lr.sets| ensures EnteredIn(lr', r) {
      assert EnteredIn(lr, r);
    }
  }

  lemma ReclosedSetOK(g: Grammar, info: Info, was: ItemSet, made: ItemSet, first: bool)
    requires ItemSetOK(g, info, was, first) && made.kernel == was.kernel
    requires UpToDate(g, info, made) && InGrammar(g, made.nonkernel) && Below(was.nonkernel, made.nonkernel)
    ensures SetGrew(was, made) && ItemSetOK(g, info, made, first)
  {
    var k :| ClosureOfLess(g, info, was, k);
    SameCoreSameItems(g, info, k, was.nonkernel, made.kernel, made.nonkernel);
    forall it ensures KernelItemOK(g, made, first, it) {
      assert KernelItemOK(g, was, first, it);
    }
    assert ClosureOfLess(g, info, made, made.kernel);
  }

  lemma ReclosedTransitions(g: Grammar, lr: LrGraph, s: nat, made: ItemSet)
    requires TransitionsOK(g, lr) && s < |lr.sets|
    requires SetGrew(lr.sets[s], made) && lr.sets[s].kernel.Keys !! lr.sets[s].nonkernel.Keys
    ensures TransitionsOK(g, lr.(sets := lr.sets[s := made]))
  {
    GrewAll(lr.sets[s], made);
    var lr' := lr.(sets := lr.sets[s := made]);
    forall r: nat, y: Symbol ensures TransOK(g, lr', r, y) {
      assert TransOK(g, lr, r, y);
    }
  }

  lemma ReclosedLeast(g: Grammar, info: Info, lr: LrGraph, s: nat, made: ItemSet)
    requires Least(g, info, lr) && s < |lr.sets| && made.kernel == lr.sets[s].kernel && UpToDate(g, info, made)
    requires lr.sets[s].kernel.Keys !! lr.sets[s].nonkernel.Keys
    ensures Least(g, info, lr.(sets := lr.sets[s := made]))
  {
    forall fam | FamilyClosed(g, info, lr.trans, fam) ensures InFamily(lr.sets[s := made], fam) {
      assert InFamily(lr.sets, fam);
      forall it | it in made.kernel ensures it in fam[s] && made.kernel[it] <= fam[s][it] {
        assert it in All(lr.sets[s]);
      }
      ClosureInFamily(g, info, made, fam[s]);
    }
  }
}
