/** Closure of a set of LR items with lookaheads, from scratch or after the kernel has grown. */
module ItemClosure {
  import opened Grammars
  import opened LrMachine

  /** Items with their lookahead terminals. */
  type Items = map<Item, set<nat>>

  /** What is known about dotted productions, and the terminals that forbid a production. */
  datatype Info = Info(first: map<Item, set<nat>>, vanishing: set<Item>, forbid: map<nat, set<nat>>)

  function Beta(it: Item): Item {
    Item(it.prod, it.dot + 1)
  }

  /** `it` is A -> alpha . B beta and production `q` is one for B. */
  predicate Wants(g: Grammar, it: Item, q: nat) {
    q < |g.prods| && AfterDot(g, it) == Some(N(g.prods[q].lhs))
  }

  /** The lookahead that `it` with lookahead `la` gives to B -> . gamma: First(beta LA) without the
      forbidden terminals. */
  function Gives(info: Info, it: Item, la: set<nat>, q: nat): set<nat> {
    (if Beta(it) in info.first then info.first[Beta(it)] else {})
    + (if Beta(it) in info.vanishing then la else {})
    - (if q in info.forbid then info.forbid[q] else {})
  }

  ghost predicate GivenTo(g: Grammar, info: Info, it: Item, la: set<nat>, nk: Items, q: nat) {
    Wants(g, it, q) ==> Item(q, 0) in nk && Gives(info, it, la, q) <= nk[Item(q, 0)]
  }

  /** Everything that `it` implies is in `nk`. */
  ghost predicate Given(g: Grammar, info: Info, it: Item, la: set<nat>, nk: Items) {
    forall q: nat :: GivenTo(g, info, it, la, nk, q)
  }

  ghost predicate ClosedFrom(g: Grammar, info: Info, from: Items, nk: Items) {
    forall it :: it in from ==> Given(g, info, it, from[it], nk)
  }

  ghost predicate Closed(g: Grammar, info: Info, kernel: Items, nk: Items) {
    ClosedFrom(g, info, kernel, nk) && ClosedFrom(g, info, nk, nk)
  }

  ghost predicate Below(m: Items, m': Items) {
    forall it :: it in m ==> it in m' && m[it] <= m'[it]
  }

  /** Nothing in `nk` could be left out. */
  ghost predicate Needed(g: Grammar, info: Info, kernel: Items, nk: Items) {
    forall nk' :: Closed(g, info, kernel, nk') ==> Below(nk, nk')
  }

  /** The least closed set of nonkernel items. */
  ghost predicate IsClosure(g: Grammar, info: Info, kernel: Items, nk: Items) {
    Closed(g, info, kernel, nk) && Needed(g, info, kernel, nk)
  }

  function Joined(m: Items, it: Item, la: set<nat>): Items {
    m[it := (if it in m then m[it] else {}) + la]
  }

  lemma GivenGrows(g: Grammar, info: Info, it: Item, la: set<nat>, nk: Items, nk': Items)
    requires Given(g, info, it, la, nk) && Below(nk, nk')
    ensures Given(g, info, it, la, nk')
  {
    forall q: nat ensures GivenTo(g, info, it, la, nk', q) {
      assert GivenTo(g, info, it, la, nk, q);
    }
  }

  lemma GivenShrinks(g: Grammar, info: Info, it: Item, la: set<nat>, la': set<nat>, nk: Items)
    requires Given(g, info, it, la', nk) && la <= la'
    ensures Given(g, info, it, la, nk)
  {
    forall q: nat ensures GivenTo(g, info, it, la, nk, q) {
      assert GivenTo(g, info, it, la', nk, q);
    }
  }

  lemma ClosureIsUnique(g: Grammar, info: Info, kernel: Items, a: Items, b: Items)
    requires IsClosure(g, info, kernel, a) && IsClosure(g, info, kernel, b)
    ensures a == b
  {
    assert Below(a, b) && Below(b, a);
    BelowBoth(a, b);
  }

  lemma BelowBoth(a: Items, b: Items)
    requires Below(a, b) && Below(b, a)
    ensures a == b
  {
    assert a.Keys == b.Keys;
    forall it | it in a ensures a[it] == b[it] {
    }
  }

  ghost predicate GivenUpTo(g: Grammar, info: Info, it: Item, la: set<nat>, nk: Items, q: nat) {
    forall p: nat :: p < q ==> GivenTo(g, info, it, la, nk, p)
  }

  lemma GivenUpToGrows(g: Grammar, info: Info, it: Item, la: set<nat>, nk: Items, nk': Items, q: nat)
    requires GivenUpTo(g, info, it, la, nk, q) && Below(nk, nk')
    ensures GivenUpTo(g, info, it, la, nk', q)
  {
    forall p: nat | p < q ensures GivenTo(g, info, it, la, nk', p) {
      assert GivenTo(g, info, it, la, nk, p);
    }
  }

  lemma GivenOneMore(g: Grammar, info: Info, it: Item, la: set<nat>, nk: Items, q: nat)
    requires GivenUpTo(g, info, it, la, nk, q) && GivenTo(g, info, it, la, nk, q)
    ensures GivenUpTo(g, info, it, la, nk, q + 1)
  {
    forall p: nat | p < q + 1 ensures GivenTo(g, info, it, la, nk, p) {
    }
  }

  ghost predicate Part(m: Items, m': Items) {
    forall it :: it in m ==> it in m' && m[it] == m'[it]
  }

  /** After the kernel's lookaheads have grown, the old nonkernel items are a valid start. */
  lemma OldClosureStarts(g: Grammar, info: Info, kernel: Items, kernel': Items, nk: Items)
    requires IsClosure(g, info, kernel, nk) && Below(kernel, kernel')
    ensures ClosedFrom(g, info, nk, nk) && Needed(g, info, kernel', nk)
  {
    forall nk' | Closed(g, info, kernel', nk') ensures Below(nk, nk') {
      forall it | it in kernel ensures Given(g, info, it, kernel[it], nk') {
        GivenShrinks(g, info, it, kernel[it], kernel'[it], nk');
      }
      assert Closed(g, info, kernel, nk');
    }
  }

  /** One more implied item keeps the set needed. */
  lemma NeededStep(g: Grammar, info: Info, kernel: Items, nk: Items, it: Item, la: set<nat>, q: nat)
    requires Needed(g, info, kernel, nk) && Wants(g, it, q)
    requires (it in kernel && la == kernel[it]) || (it in nk && la == nk[it])
    ensures Needed(g, info, kernel, Joined(nk, Item(q, 0), Gives(info, it, la, q)))
  {
    forall nk' | Closed(g, info, kernel, nk') ensures Below(Joined(nk, Item(q, 0), Gives(info, it, la, q)), nk') {
      assert Below(nk, nk');
      if it in kernel && la == kernel[it] {
        assert Given(g, info, it, la, nk');
      } else {
        assert Given(g, info, it, nk'[it], nk');
        GivenShrinks(g, info, it, la, nk'[it], nk');
      }
      assert GivenTo(g, info, it, la, nk', q);
    }
  }

  // ---------------------------------------------------------------- termination

  /** An item alone, or with one lookahead terminal. */
  type Fact = (Item, Option<nat>)

  ghost function Facts(m: Items): set<Fact> {
    (set it | it in m :: (it, None)) + (set it, t | it in m && t in m[it] :: (it, Some(t)))
  }

  ghost function AllFacts(g: Grammar): set<Fact> {
    (set p: nat | p < |g.prods| :: (Item(p, 0), None))
    + (set p: nat, t: nat | p < |g.prods| && t < g.numTerms :: (Item(p, 0), Some(t)))
  }

  /** Only items with the dot on the left, and existing terminals. */
  ghost predicate InGrammar(g: Grammar, m: Items) {
    forall it :: it in m ==> it.prod < |g.prods| && it.dot == 0 && Terminals(g, m[it])
  }

  ghost predicate Terminals(g: Grammar, ts: set<nat>) {
    forall t :: t in ts ==> t < g.numTerms
  }

  ghost predicate InfoInGrammar(g: Grammar, info: Info) {
    forall it :: it in info.first ==> Terminals(g, info.first[it])
  }

  lemma MoreFacts(g: Grammar, m: Items, m': Items)
    requires InGrammar(g, m') && Below(m, m') && m != m'
    ensures AllFacts(g) - Facts(m') < AllFacts(g) - Facts(m)
  {
    assert Facts(m) <= Facts(m');
    if it :| it in m' && it !in m {
      assert (it, None) in Facts(m') && (it, None) in AllFacts(g) && (it, None) !in Facts(m);
    } else {
      assert m.Keys == m'.Keys;
      var it :| it in m' && m'[it] != m[it];
      var t :| t in m'[it] && t !in m[it];
      assert (it, Some(t)) in Facts(m') && (it, Some(t)) in AllFacts(g) && (it, Some(t)) !in Facts(m);
    }
  }

  // ---------------------------------------------------------------- the algorithm

  class ClosureWork {
    const g: Grammar
    const info: Info
    /** Items that are closed. */
    var finished: Items
    /** Items yet to be closed, by their dotted productions. */
    var worklist: seq<Item>
    /** From a dotted production to its item while that is on the worklist. */
    var backPointer: Items

    constructor (g: Grammar, info: Info)
      ensures this.g == g && this.info == info && finished == map[] && worklist == [] && backPointer == map[]
    {
      this.g, this.info := g, info;
      finished, worklist, backPointer := map[], [], map[];
    }

    /** A dotted production points back exactly while its item is on the worklist, once. */
    ghost predicate Valid()
      reads this
    {
      && (forall i, j :: 0 <= i < j < |worklist| ==> worklist[i] != worklist[j])
      && (forall it :: it in worklist <==> it in backPointer)
      && finished.Keys !! backPointer.Keys
      && InGrammar(g, All()) && InfoInGrammar(g, info)
    }

    ghost function All(): Items
      reads this
    {
      finished + backPointer
    }

    function Lookahead(it: Item): set<nat>
      requires it in finished || it in backPointer
      reads this
    {
      if it in backPointer then backPointer[it] else finished[it]
    }

    /** Merge into an item that is there, or make it; whatever changes is on the worklist afterwards. */
    method AddLookahead(q: nat, newItemLA: set<nat>)
      requires Valid() && q < |g.prods| && Terminals(g, newItemLA)
      modifies this
      ensures Valid() && All() == Joined(old(All()), Item(q, 0), newItemLA)
      ensures Part(finished, old(finished))
      ensures All() == old(All()) ==> worklist == old(worklist)
    {
      var newDP := Item(q, 0);
      if newDP in backPointer {
        backPointer := backPointer[newDP := backPointer[newDP] + newItemLA];
      } else if newDP in finished {
        if !(newItemLA <= finished[newDP]) {
          Push(newDP, finished[newDP] + newItemLA);
        } else {
          assert finished[newDP] + newItemLA == finished[newDP];
        }
      } else {
        Push(newDP, {} + newItemLA);
      }
    }

    /** Onto the worklist, and off the finished items if it was there. */
    method Push(dp: Item, la: set<nat>)
      requires Valid() && dp !in backPointer && dp.prod < |g.prods| && dp.dot == 0 && Terminals(g, la)
      modifies this
      ensures Valid() && All() == old(All())[dp := la]
      ensures finished == old(finished) - {dp}
    {
      Requeued(finished, backPointer, dp, la);
      finished := finished - {dp};
      worklist := worklist + [dp];
      backPointer := backPointer[dp := la];
    }

    /** Add what one item implies by production `q`. */
    method Imply(it: Item, la: set<nat>, q: nat, ghost kernel: Items)
      requires Valid() && Needed(g, info, kernel, All()) && Wants(g, it, q) && Terminals(g, la)
      requires (it in kernel && la == kernel[it]) || (it in All() && la == All()[it])
      modifies this
      ensures Valid() && Needed(g, info, kernel, All()) && Below(old(All()), All())
      ensures GivenTo(g, info, it, la, All(), q)
      ensures Part(finished, old(finished))
      ensures All() == old(All()) ==> worklist == old(worklist)
    {
      NeededStep(g, info, kernel, All(), it, la, q);
      AddLookahead(q, Gives(info, it, la, q));
    }

    /** What one item implies by production `q`. The lookahead of a nonkernel item is read afresh, since
        the item may have implied itself. */
    method ImplyBy(it: Item, kernelLA: Option<set<nat>>, q: nat, ghost kernel: Items, ghost la0: set<nat>)
      requires Valid() && Needed(g, info, kernel, All()) && q < |g.prods|
      requires if kernelLA.Some? then it in kernel && kernel[it] == kernelLA.value == la0 && Terminals(g, la0)
                 else it in All()
      requires kernelLA.None? && it in finished ==> finished[it] == la0
      modifies this
      ensures Valid() && Needed(g, info, kernel, All()) && Below(old(All()), All()) && Part(finished, old(finished))
      ensures kernelLA.Some? || it in finished ==> GivenTo(g, info, it, la0, All(), q)
      ensures All() == old(All()) ==> worklist == old(worklist)
    {
      if AfterDot(g, it) == Some(N(g.prods[q].lhs)) {
        var la := if kernelLA.Some? then kernelLA.value else Lookahead(it);
        Imply(it, la, q, kernel);
      }
    }

    /** Add what one item implies. */
    method SingleItemClosure(it: Item, kernelLA: Option<set<nat>>, ghost kernel: Items)
      requires Valid() && Needed(g, info, kernel, All())
      requires if kernelLA.Some? then it in kernel && kernel[it] == kernelLA.value && Terminals(g, kernel[it])
                 else it in finished
      modifies this
      ensures Valid() && Needed(g, info, kernel, All()) && Below(old(All()), All())
      ensures Part(finished, old(finished))
      ensures kernelLA.Some? ==> Given(g, info, it, kernelLA.value, All())
      ensures kernelLA.None? && it in finished ==> Given(g, info, it, finished[it], All())
      ensures All() == old(All()) ==> worklist == old(worklist)
    {
      ghost var start, la0 := All(), if kernelLA.Some? then kernelLA.value else finished[it];
      for q := 0 to |g.prods|
        invariant Valid() && Needed(g, info, kernel, All()) && Below(start, All())
        invariant Part(finished, old(finished))
        invariant kernelLA.Some? || it in finished ==> GivenUpTo(g, info, it, la0, All(), q)
        invariant All() == start ==> worklist == old(worklist)
      {
        ghost var before := All();
        ImplyBy(it, kernelLA, q, kernel, la0);
        if All() == start {
          BelowBoth(before, start);
        }
        if kernelLA.Some? || it in finished {
          GivenUpToGrows(g, info, it, la0, before, All(), q);
          GivenOneMore(g, info, it, la0, All(), q);
        }
      }
    }

    /** Close the kernel items, then whatever is on the worklist, starting from nonkernel items that
        are closed and needed: none, or those of a smaller kernel. */
    method ItemSetClosure(kernel: Items, nonkernel: Items) returns (closed: Items)
      requires worklist == [] && backPointer == map[] && InfoInGrammar(g, info) && InGrammar(g, nonkernel)
      requires forall it :: it in kernel ==> Terminals(g, kernel[it])
      requires ClosedFrom(g, info, nonkernel, nonkernel) && Needed(g, info, kernel, nonkernel)
      modifies this
      ensures IsClosure(g, info, kernel, closed) && InGrammar(g, closed) && Below(nonkernel, closed)
      ensures worklist == [] && backPointer == map[]
    {
      finished := nonkernel;
      assert All() == nonkernel;
      CloseKernel(kernel, nonkernel);
      while worklist != []
        invariant Valid() && Needed(g, info, kernel, All()) && Below(nonkernel, All())
        invariant ClosedFrom(g, info, kernel, All()) && ClosedFrom(g, info, finished, All())
        decreases AllFacts(g) - Facts(All()), |worklist|
      {
        ghost var before, size := All(), |worklist|;
        var it := Pop();
        SingleItemClosure(it, None, kernel);
        StillClosed(g, info, kernel, before, All());
        forall x | x in finished ensures Given(g, info, x, finished[x], All()) {
          if x != it {
            GivenGrows(g, info, x, finished[x], before, All());
          }
        }
        if All() != before {
          MoreFacts(g, before, All());
        }
      }
      assert backPointer == map[] by {
        forall x ensures x !in backPointer {
          assert x !in worklist;
        }
      }
      assert All() == finished;
      closed := finished;
    }

    /** Off the worklist, so no longer pointed back to; done unless it is implied again. */
    method Pop() returns (it: Item)
      requires Valid() && worklist != []
      modifies this
      ensures Valid() && All() == old(All()) && it in old(backPointer) && it in finished
      ensures |worklist| == |old(worklist)| - 1 && finished == old(finished)[it := old(backPointer)[it]]
    {
      var k := |worklist| - 1;
      it := worklist[k];
      DropLast(worklist);
      assert it in worklist;
      Moved(finished, backPointer, it);
      finished := finished[it := backPointer[it]];
      worklist := worklist[..k];
      backPointer := backPointer - {it};
    }

    method CloseKernel(kernel: Items, ghost nonkernel: Items)
      requires Valid() && Needed(g, info, kernel, All()) && finished == nonkernel == All()
      requires ClosedFrom(g, info, nonkernel, nonkernel)
      requires forall it :: it in kernel ==> Terminals(g, kernel[it])
      modifies this
      ensures Valid() && Needed(g, info, kernel, All()) && Below(nonkernel, All())
      ensures ClosedFrom(g, info, kernel, All()) && ClosedFrom(g, info, finished, All())
    {
      var todo := kernel.Keys;
      while todo != {}
        invariant Valid() && Needed(g, info, kernel, All()) && Below(nonkernel, All()) && todo <= kernel.Keys
        invariant forall it :: it in kernel && it !in todo ==> Given(g, info, it, kernel[it], All())
        invariant ClosedFrom(g, info, finished, All())
        decreases todo
      {
        ghost var before, closed := All(), finished;
        var it :| it in todo;
        todo := todo - {it};
        SingleItemClosure(it, Some(kernel[it]), kernel);
        forall x | x in kernel && x !in todo ensures Given(g, info, x, kernel[x], All()) {
          if x != it {
            GivenGrows(g, info, x, kernel[x], before, All());
          }
        }
        StillClosed(g, info, finished, before, All());
      }
    }
  }

  lemma StillClosed(g: Grammar, info: Info, from: Items, nk: Items, nk': Items)
    requires Below(nk, nk') && ClosedFrom(g, info, from, nk)
    ensures ClosedFrom(g, info, from, nk')
  {
    forall it | it in from ensures Given(g, info, it, from[it], nk') {
      GivenGrows(g, info, it, from[it], nk, nk');
    }
  }

  lemma DropLast(w: seq<Item>)
    requires w != [] && forall i, j :: 0 <= i < j < |w| ==> w[i] != w[j]
    ensures forall x :: x in w[..|w| - 1] <==> x in w && x != w[|w| - 1]
  {
  }

  lemma Requeued(f: Items, b: Items, dp: Item, la: set<nat>)
    requires f.Keys !! b.Keys && dp !in b
    ensures (f - {dp}) + b[dp := la] == (f + b)[dp := la] && (f - {dp}).Keys !! b[dp := la].Keys
  {
  }

  lemma Moved(f: Items, b: Items, dp: Item)
    requires f.Keys !! b.Keys && dp in b
    ensures f[dp := b[dp]] + (b - {dp}) == f + b && f[dp := b[dp]].Keys !! (b - {dp}).Keys
  {
  }
}
