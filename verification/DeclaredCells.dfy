/** What the cells of the tables hold, read off the declarations and the automaton alone. */
module DeclaredCells {
  import opened Grammars
  import opened LrMachine
  import opened Gss
  import opened ItemClosure
  import opened ConflictResolution
  import opened TableBuilding

  // ---------------------------------------------------------------- a shift against one reduction

  ghost predicate BothRanked(d: Declarations, p: nat, t: nat) {
    p in d.prodPrec && t in d.termPrec && d.prodPrec[p] > 0 && d.termPrec[t] > 0
  }

  /** Production and token have the same precedence. */
  ghost predicate Level(d: Declarations, p: nat, t: nat) {
    BothRanked(d, p, t) && d.prodPrec[p] == d.termPrec[t]
  }

  ghost predicate Associates(d: Declarations, t: nat, kind: AssocKind) {
    if t in d.termAssoc then d.termAssoc[t] == kind else kind == AK_NONASSOC
  }

  /** The string that the item goes on with can begin with `t`. */
  ghost predicate GoesOn(g: Grammar, d: Declarations, it: Item, t: nat) {
    && it.prod < |g.prods| && it.dot < |g.prods[it.prod].rhs|
    && match g.prods[it.prod].rhs[it.dot]
       case T(u) => u == t
       case N(b) => b in d.first && t in d.first[b]
  }

  /** The nearest maximal superset of the left side of `p` can still grow by `t`. */
  ghost predicate Grows(g: Grammar, d: Declarations, items: set<Item>, p: nat, t: nat) {
    exists n: nat, it: Item :: GrowsBy(g, d, items, p, t, n, it)
  }

  ghost predicate GrowsBy(g: Grammar, d: Declarations, items: set<Item>, p: nat, t: nat, n: nat, it: Item) {
    && p < |g.prods| && MaximalAfter(d, g.prods[p].lhs, n) && it in items && GoesOn(g, d, it, t)
    && g.prods[it.prod].lhs == Superset(d, g.prods[p].lhs, n).value
  }

  /** The production has the higher precedence, or the same and the token is left associative or nonassociative. */
  ghost predicate ReducesBefore(d: Declarations, p: nat, t: nat) {
    && BothRanked(d, p, t)
    && (d.prodPrec[p] > d.termPrec[t]
        || (Level(d, p, t) && (Associates(d, t, AK_LEFT) || Associates(d, t, AK_NONASSOC))))
  }

  /** The token has the higher precedence, or the same and is right associative or nonassociative. */
  ghost predicate ShiftsBefore(d: Declarations, p: nat, t: nat) {
    && BothRanked(d, p, t)
    && (d.prodPrec[p] < d.termPrec[t]
        || (Level(d, p, t) && (Associates(d, t, AK_RIGHT) || Associates(d, t, AK_NONASSOC))))
  }

  /** Maximal munch goes before precedence. */
  ghost predicate RemovesShift(g: Grammar, d: Declarations, items: set<Item>, p: nat, t: nat) {
    !Grows(g, d, items, p, t) && ReducesBefore(d, p, t)
  }

  ghost predicate LosesToShift(g: Grammar, d: Declarations, items: set<Item>, p: nat, t: nat) {
    Grows(g, d, items, p, t) || ShiftsBefore(d, p, t)
  }

  lemma GrowsMeans(g: Grammar, d: Declarations, items: set<Item>, p: nat, t: nat)
    requires p < |g.prods|
    ensures Munches(g, d, items, p, t) <==> Grows(g, d, items, p, t)
  {
    var a := g.prods[p].lhs;
    if b: nat :| NearestMaximal(d, a, Some(b)) && HasExtendingShift(g, d, items, b, t) {
      var n: nat :| MaximalAfter(d, a, n) && Superset(d, a, n) == Some(b);
      var it :| it in items && ExtendsWith(g, d, it, b, t);
      assert GrowsBy(g, d, items, p, t, n, it);
    }
    if n: nat, it: Item :| GrowsBy(g, d, items, p, t, n, it) {
      var b := Superset(d, a, n).value;
      assert NearestMaximal(d, a, Some(b)) && ExtendsWith(g, d, it, b, t);
    }
  }

  lemma VerdictMeans(g: Grammar, d: Declarations, items: set<Item>, p: nat, t: nat)
    requires p < |g.prods|
    ensures Judge(g, d, items, p, t).keepShift <==> !RemovesShift(g, d, items, p, t)
    ensures Judge(g, d, items, p, t).keepReduce <==> !LosesToShift(g, d, items, p, t)
  {
    GrowsMeans(g, d, items, p, t);
  }

  // ---------------------------------------------------------------- a whole cell

  /** The item sets allow to reduce by `p` in state `s` before `t`. */
  ghost predicate Possible(g: Grammar, a: Automaton, s: nat, t: nat, p: nat) {
    && s < |a.items| && p < |g.prods| && Item(p, |g.prods[p].rhs|) in a.items[s]
    && t in a.items[s][Item(p, |g.prods[p].rhs|)]
  }

  ghost predicate ShiftStaysIn(g: Grammar, d: Declarations, a: Automaton, s: nat, t: nat) {
    && (s, T(t)) in a.trans
    && forall p: nat :: Possible(g, a, s, t, p) ==> !RemovesShift(g, d, a.items[s].Keys, p, t)
  }

  /** A reduction that does not lose to the shift, if there is one. */
  ghost predicate Contender(g: Grammar, d: Declarations, a: Automaton, s: nat, t: nat, p: nat) {
    Possible(g, a, s, t, p) && ((s, T(t)) in a.trans ==> !LosesToShift(g, d, a.items[s].Keys, p, t))
  }

  ghost predicate Outclassed(g: Grammar, d: Declarations, a: Automaton, s: nat, t: nat, p: nat) {
    p in d.prodPrec && d.prodPrec[p] > 0
    && exists q: nat :: Contender(g, d, a, s, t, q) && q in d.prodPrec && d.prodPrec[p] < d.prodPrec[q]
  }

  ghost predicate Finalist(g: Grammar, d: Declarations, a: Automaton, s: nat, t: nat, p: nat) {
    Contender(g, d, a, s, t, p) && !Outclassed(g, d, a, s, t, p)
  }

  ghost predicate HasRival(g: Grammar, d: Declarations, a: Automaton, s: nat, t: nat, p: nat) {
    exists q: nat :: Finalist(g, d, a, s, t, q) && q != p
  }

  /** A finalist reduces to a declared subset of what `p` reduces to. */
  ghost predicate YieldsToSubset(g: Grammar, d: Declarations, a: Automaton, s: nat, t: nat, p: nat)
    requires p < |g.prods|
  {
    && g.prods[p].lhs in d.subsets
    && exists q: nat :: Finalist(g, d, a, s, t, q) && g.prods[q].lhs in d.superset
                        && g.prods[q].lhs in d.subsets[g.prods[p].lhs]
  }

  /** The reductions that the declarations leave. */
  ghost predicate Chosen(g: Grammar, d: Declarations, a: Automaton, s: nat, t: nat, p: nat) {
    && Finalist(g, d, a, s, t, p)
    && (HasRival(g, d, a, s, t, p) ==> !YieldsToSubset(g, d, a, s, t, p))
  }

  /** The order of the items does not matter: whatever loses to a shift that another reduction removes is
      outclassed anyway. */
  ghost predicate OrderFree(g: Grammar, d: Declarations, a: Automaton, s: nat, t: nat) {
    (s, T(t)) in a.trans ==> forall p: nat, q: nat :: OrderFreeFor(g, d, a, s, t, p, q)
  }

  ghost predicate OrderFreeFor(g: Grammar, d: Declarations, a: Automaton, s: nat, t: nat, p: nat, q: nat) {
    (&& Possible(g, a, s, t, p) && Possible(g, a, s, t, q) && p != q
     && LosesToShift(g, d, a.items[s].Keys, p, t) && RemovesShift(g, d, a.items[s].Keys, q, t)) ==>
      Outclassed(g, d, a, s, t, p)
  }

  /** The entry of a cell: the shift, if no reduction removes it, and the chosen reductions. Where ambiguity is not
      allowed, only the shift, or else the first of them. */
  ghost predicate CellObeys(g: Grammar, d: Declarations, allowAmbig: bool, a: Automaton, pt: ParseTables, s: nat,
                            t: nat) {
    var cell := ActionEntry(pt, s, t);
    && ShiftDest(cell) == (if ShiftStaysIn(g, d, a, s, t) then Some(a.trans[(s, T(t))]) else None)
    && (OrderFree(g, d, a, s, t) ==>
          forall p: nat :: CanReduce(cell, p) <==> Chosen(g, d, a, s, t, p) && Allows(g, d, allowAmbig, a, s, t, p))
    && (forall p: nat :: LoserGoes(g, d, a, pt, s, t, p))
  }

  /** What loses to the shift goes, in any order, unless another reduction removes the shift. */
  ghost predicate LoserGoes(g: Grammar, d: Declarations, a: Automaton, pt: ParseTables, s: nat, t: nat, p: nat) {
    (&& Possible(g, a, s, t, p) && (s, T(t)) in a.trans && LosesToShift(g, d, a.items[s].Keys, p, t)
     && forall q: nat :: Possible(g, a, s, t, q) && q != p ==> !RemovesShift(g, d, a.items[s].Keys, q, t)) ==>
      !CanReduce(ActionEntry(pt, s, t), p)
  }

  ghost predicate Allows(g: Grammar, d: Declarations, allowAmbig: bool, a: Automaton, s: nat, t: nat, p: nat) {
    allowAmbig || (!ShiftStaysIn(g, d, a, s, t) && forall q: nat :: Chosen(g, d, a, s, t, q) ==> p <= q)
  }

  ghost predicate TablesObey(g: Grammar, d: Declarations, allowAmbig: bool, a: Automaton, pt: ParseTables) {
    forall s: nat, t: nat :: s < |a.items| && t < g.numTerms ==> CellObeys(g, d, allowAmbig, a, pt, s, t)
  }

  // ---------------------------------------------------------------- the proof

  lemma ListedArePossible(g: Grammar, a: Automaton, s: nat, t: nat, reds: seq<nat>)
    requires s < |a.items| && ListsPossible(g, a.items[s], t, reds)
    ensures forall p: nat :: p in reds <==> Possible(g, a, s, t, p)
  {
    forall p: nat ensures p in reds <==> Possible(g, a, s, t, p) {
      assert p in reds <==> CanReduceBy(g, a.items[s], t, p);
    }
  }

  lemma ShiftMeans(g: Grammar, d: Declarations, a: Automaton, s: nat, t: nat, reds: seq<nat>)
    requires s < |a.items| && ListsPossible(g, a.items[s], t, reds) && (s, T(t)) in a.trans
    ensures ShiftStays(Judges(g, d, a.items[s].Keys, t), reds) <==> ShiftStaysIn(g, d, a, s, t)
  {
    ListedArePossible(g, a, s, t, reds);
    forall p: nat | Possible(g, a, s, t, p)
      ensures Judge(g, d, a.items[s].Keys, p, t).keepShift <==> !RemovesShift(g, d, a.items[s].Keys, p, t)
    {
      VerdictMeans(g, d, a.items[s].Keys, p, t);
    }
  }

  /** The reductions that are left of those that conflict with a shift. */
  lemma LeftAreFinalists(g: Grammar, d: Declarations, a: Automaton, s: nat, t: nat, reds: seq<nat>, p: nat)
    requires s < |a.items| && ListsPossible(g, a.items[s], t, reds) && (s, T(t)) in a.trans
    requires OrderFree(g, d, a, s, t)
    ensures p in Left(Judges(g, d, a.items[s].Keys, t), d, reds) <==> Finalist(g, d, a, s, t, p)
  {
    var judge, all := Judges(g, d, a.items[s].Keys, t), set q | q in reds;
    ListedArePossible(g, a, s, t, reds);
    forall q: nat | q in all
      ensures judge(q).keepShift <==> !RemovesShift(g, d, a.items[s].Keys, q, t)
      ensures judge(q).keepReduce <==> Contender(g, d, a, s, t, q)
      ensures OutrankedByWinner(judge, d, all, q) <==> Outclassed(g, d, a, s, t, q)
    {
      VerdictMeans(g, d, a.items[s].Keys, q, t);
      OutrankedMeans(g, d, a, s, t, reds, q);
    }
    forall q: nat, r: nat | q in all && r in all && q != r && !judge(q).keepReduce && !judge(r).keepShift
      ensures OutrankedByWinner(judge, d, all, q)
    {
      assert OrderFreeFor(g, d, a, s, t, q, r);
    }
    WinnersAreLeft(judge, d, all, reds, p);
  }

  lemma OutrankedMeans(g: Grammar, d: Declarations, a: Automaton, s: nat, t: nat, reds: seq<nat>, p: nat)
    requires s < |a.items| && ListsPossible(g, a.items[s], t, reds) && (s, T(t)) in a.trans
    ensures OutrankedByWinner(Judges(g, d, a.items[s].Keys, t), d, (set q | q in reds), p) <==>
            Outclassed(g, d, a, s, t, p)
  {
    ListedArePossible(g, a, s, t, reds);
    var judge := Judges(g, d, a.items[s].Keys, t);
    forall q: nat | q in reds ensures judge(q).keepReduce <==> Contender(g, d, a, s, t, q) {
      VerdictMeans(g, d, a.items[s].Keys, q, t);
    }
  }

  /** Without a shift they compete with each other only. */
  lemma ListedAreFinalists(g: Grammar, d: Declarations, a: Automaton, s: nat, t: nat, reds: seq<nat>, p: nat)
    requires s < |a.items| && ListsPossible(g, a.items[s], t, reds) && (s, T(t)) !in a.trans
    ensures p in Filter(NotOutranked(d, reds), reds) <==> Finalist(g, d, a, s, t, p)
  {
    ListedArePossible(g, a, s, t, reds);
    FilterKeeps(NotOutranked(d, reds), reds, p);
  }

  lemma ChosenAreLeft(g: Grammar, d: Declarations, a: Automaton, s: nat, t: nat, finalists: seq<nat>, p: nat)
    requires Distinct(finalists) && forall q: nat :: q in finalists <==> Finalist(g, d, a, s, t, q)
    ensures p in (if |finalists| > 1 then Filter(NoSubset(g, d, finalists), finalists) else finalists) <==>
            Chosen(g, d, a, s, t, p)
  {
    FilterKeeps(NoSubset(g, d, finalists), finalists, p);
    if |finalists| > 1 && p in finalists {
      var q := if finalists[0] == p then finalists[1] else finalists[0];
      assert q in finalists && q != p;
      assert HasRival(g, d, a, s, t, p);
    }
    if HasRival(g, d, a, s, t, p) && Finalist(g, d, a, s, t, p) {
      var q: nat :| Finalist(g, d, a, s, t, q) && q != p;
      assert q in finalists && p in finalists;
      assert |finalists| > 1;
    }
    if Finalist(g, d, a, s, t, p) {
      assert HasSubset(g, d, finalists, p) <==> YieldsToSubset(g, d, a, s, t, p);
    }
  }

  lemma ByDeclarationsMeans(g: Grammar, d: Declarations, a: Automaton, s: nat, t: nat, reds: seq<nat>)
    requires s < |a.items| && ListsPossible(g, a.items[s], t, reds)
    ensures var left := ByDeclarations(g, d, a.items[s].Keys, t, Choice(ShiftFrom(a, s, t), reds));
            && left.shift == (if ShiftStaysIn(g, d, a, s, t) then Some(a.trans[(s, T(t))]) else None)
            && (OrderFree(g, d, a, s, t) ==> forall p: nat :: p in left.reds <==> Chosen(g, d, a, s, t, p))
  {
    var judge := Judges(g, d, a.items[s].Keys, t);
    var reds1 := if (s, T(t)) in a.trans then AgainstShift(judge, reds) else reds;
    var reds2 := Filter(NotOutranked(d, reds1), reds1);
    if (s, T(t)) in a.trans {
      ShiftMeans(g, d, a, s, t, reds);
    }
    AgainstShiftRemoves(judge, reds);
    FilterRemoves(NotOutranked(d, reds1), reds1);
    if OrderFree(g, d, a, s, t) {
      forall p: nat ensures p in reds2 <==> Finalist(g, d, a, s, t, p) {
        if (s, T(t)) in a.trans {
          LeftAreFinalists(g, d, a, s, t, reds, p);
        } else {
          ListedAreFinalists(g, d, a, s, t, reds, p);
        }
      }
      forall p: nat
        ensures p in (if |reds2| > 1 then Filter(NoSubset(g, d, reds2), reds2) else reds2) <==>
                Chosen(g, d, a, s, t, p)
      {
        ChosenAreLeft(g, d, a, s, t, reds2, p);
      }
    }
  }

  /** What conflict resolution puts into a cell is what the declarations say. */
  lemma ResolvedObeys(g: Grammar, d: Declarations, allowAmbig: bool, a: Automaton, pt: ParseTables, s: nat, t: nat)
    requires CellFits(g, d, allowAmbig, a, pt.action, s, t)
    ensures CellObeys(g, d, allowAmbig, a, pt, s, t)
  {
    var shift, cell := ShiftFrom(a, s, t), ActionEntry(pt, s, t);
    var reds: seq<nat>, r: Choice :| ResolvedFrom(g, d, a.items[s], t, shift, allowAmbig, cell, reds, r);
    OnlyRemoves(g, d, a.items[s].Keys, t, Choice(shift, reds), allowAmbig, r);
    CellMeans(r);
    ByDeclarationsMeans(g, d, a, s, t, reds);
    var left := ByDeclarations(g, d, a.items[s].Keys, t, Choice(shift, reds));
    if OrderFree(g, d, a, s, t) {
      OneOrAll(g, d, allowAmbig, a, s, t, left, r);
    }
    forall p: nat ensures LoserGoes(g, d, a, pt, s, t, p) {
      if Possible(g, a, s, t, p) && (s, T(t)) in a.trans && LosesToShift(g, d, a.items[s].Keys, p, t)
         && forall q: nat :: Possible(g, a, s, t, q) && q != p ==> !RemovesShift(g, d, a.items[s].Keys, q, t) {
        LoserIsDropped(g, d, allowAmbig, a, s, t, reds, r, p);
      }
    }
  }

  lemma LoserIsDropped(g: Grammar, d: Declarations, allowAmbig: bool, a: Automaton, s: nat, t: nat, reds: seq<nat>,
                       r: Choice, p: nat)
    requires s < |a.items| && ListsPossible(g, a.items[s], t, reds)
    requires Resolves(g, d, a.items[s].Keys, t, Choice(ShiftFrom(a, s, t), reds), allowAmbig, r)
    requires (s, T(t)) in a.trans && Possible(g, a, s, t, p) && LosesToShift(g, d, a.items[s].Keys, p, t)
    requires forall q: nat :: Possible(g, a, s, t, q) && q != p ==> !RemovesShift(g, d, a.items[s].Keys, q, t)
    ensures p !in r.reds
  {
    ListedArePossible(g, a, s, t, reds);
    var judge := Judges(g, d, a.items[s].Keys, t);
    var reds1 := AgainstShift(judge, reds);
    var reds2 := Filter(NotOutranked(d, reds1), reds1);
    VerdictMeans(g, d, a.items[s].Keys, p, t);
    if p in reds1 {
      var q := SparedByAnother(judge, reds, p);
      VerdictMeans(g, d, a.items[s].Keys, q, t);
      assert false;
    }
    FilterRemoves(NotOutranked(d, reds1), reds1);
    FilterRemoves(NoSubset(g, d, reds2), reds2);
  }

  lemma OneOrAll(g: Grammar, d: Declarations, allowAmbig: bool, a: Automaton, s: nat, t: nat, left: Choice, r: Choice)
    requires left.shift.Some? <==> ShiftStaysIn(g, d, a, s, t)
    requires forall p: nat :: p in left.reds <==> Chosen(g, d, a, s, t, p)
    requires if allowAmbig || Actions(left) <= 1 then r == left
             else if left.shift.Some? then r == Choice(left.shift, [])
             else r.shift == None && |r.reds| == 1 && FirstOf(left.reds, r.reds[0])
    ensures forall p: nat :: p in r.reds <==> Chosen(g, d, a, s, t, p) && Allows(g, d, allowAmbig, a, s, t, p)
  {
    forall p: nat ensures p in r.reds <==> Chosen(g, d, a, s, t, p) && Allows(g, d, allowAmbig, a, s, t, p) {
      if !allowAmbig && Actions(left) <= 1 && p in left.reds {
        assert left.reds == [p];
      }
      if !allowAmbig && Actions(left) > 1 && left.shift.None? && Chosen(g, d, a, s, t, p)
         && Allows(g, d, allowAmbig, a, s, t, p) {
        assert Chosen(g, d, a, s, t, r.reds[0]) && p <= r.reds[0] && r.reds[0] <= p;
      }
    }
  }

  // ---------------------------------------------------------------- one shift and one reduction

  ghost predicate OnlyReduction(g: Grammar, a: Automaton, s: nat, t: nat, p: nat) {
    forall q: nat :: Possible(g, a, s, t, q) <==> q == p
  }

  ghost predicate NothingMaximal(g: Grammar, d: Declarations, p: nat) {
    p < |g.prods| && forall n: nat :: Superset(d, g.prods[p].lhs, n).Some? ==>
                       Superset(d, g.prods[p].lhs, n).value !in d.maximal
  }

  lemma SameTwice(acts: seq<Action>, a: Action)
    requires forall i :: 0 < i < |acts| ==> acts[i] == a
    ensures |acts| > 2 ==> acts[1] == acts[2]
  {
  }

  lemma OneAction(cell: Action, shift: Option<nat>, p: nat, reduces: bool)
    requires WellFormedCell(cell) && ShiftDest(cell) == shift
    requires forall q: nat :: CanReduce(cell, q) <==> reduces && q == p
    ensures !reduces && shift.None? ==> cell == Error
    ensures reduces && shift.None? ==> cell == Reduce(p)
    ensures !reduces && shift.Some? ==> cell == Shift(shift.value)
    ensures reduces && shift.Some? ==> cell == Ambig([Shift(shift.value), Reduce(p)])
  {
    assert CanReduce(cell, p) <==> reduces;
    if cell.Reduce? {
      assert CanReduce(cell, cell.prod);
    }
    if cell.Ambig? {
      var acts := cell.acts;
      forall i | 0 <= i < |acts| && acts[i].Reduce? ensures reduces && acts[i] == Reduce(p) {
        assert acts[i] in acts && CanReduce(cell, acts[i].prod);
      }
      assert acts[1] == Reduce(p) && SimpleAction(acts[0]);
      assert acts[0].Shift? && FirstShift(acts) == Some(acts[0].dest);
      SameTwice(acts, Reduce(p));
      assert acts == [acts[0], acts[1]];
    }
  }

  /** Precedence decides, and associativity between equals. */
  lemma PrecedenceAndAssociativity(g: Grammar, d: Declarations, allowAmbig: bool, a: Automaton, pt: ParseTables, s: nat,
                                   t: nat, p: nat)
    requires TablesFit(g, a, pt) && TablesObey(g, d, allowAmbig, a, pt) && s < |a.items| && t < g.numTerms
    requires (s, T(t)) in a.trans && OnlyReduction(g, a, s, t, p) && NothingMaximal(g, d, p)
    requires p in d.prodPrec && t in d.termPrec && d.prodPrec[p] > 0 && d.termPrec[t] > 0
    ensures var shift := a.trans[(s, T(t))];
            var higher, lower := d.prodPrec[p] > d.termPrec[t], d.prodPrec[p] < d.termPrec[t];
            var kind := if t in d.termAssoc then d.termAssoc[t] else AK_NONASSOC;
            ActionEntry(pt, s, t) ==
            if higher then Reduce(p)
            else if lower then Shift(shift)
            else match kind
              case AK_LEFT => Reduce(p)
              case AK_RIGHT => Shift(shift)
              case AK_NONASSOC => Error
              case AK_NEVERASSOC => if allowAmbig then Ambig([Shift(shift), Reduce(p)]) else Shift(shift)
              case AK_SPLIT => if allowAmbig then Ambig([Shift(shift), Reduce(p)]) else Shift(shift)
  {
    var items, cell := a.items[s].Keys, ActionEntry(pt, s, t);
    assert CellObeys(g, d, allowAmbig, a, pt, s, t) && Possible(g, a, s, t, p) && WellFormedCell(cell);
    assert !Grows(g, d, items, p, t);
    LoneReduction(g, d, a, s, t, p);
    var stays := !RemovesShift(g, d, items, p, t);
    var keeps := !LosesToShift(g, d, items, p, t);
    assert ShiftStaysIn(g, d, a, s, t) <==> stays;
    forall q: nat ensures CanReduce(cell, q) <==> (keeps && (allowAmbig || !stays)) && q == p {
      assert Chosen(g, d, a, s, t, q) <==> keeps && q == p;
    }
    OneAction(cell, if stays then Some(a.trans[(s, T(t))]) else None, p, keeps && (allowAmbig || !stays));
  }

  lemma LoneReduction(g: Grammar, d: Declarations, a: Automaton, s: nat, t: nat, p: nat)
    requires s < |a.items| && OnlyReduction(g, a, s, t, p) && (s, T(t)) in a.trans
    ensures OrderFree(g, d, a, s, t)
    ensures forall q: nat :: Chosen(g, d, a, s, t, q) <==> q == p && !LosesToShift(g, d, a.items[s].Keys, p, t)
  {
    assert Possible(g, a, s, t, p);
    forall q: nat, r: nat ensures OrderFreeFor(g, d, a, s, t, q, r) {
    }
    forall q: nat ensures Chosen(g, d, a, s, t, q) <==> q == p && !LosesToShift(g, d, a.items[s].Keys, p, t) {
      assert !Outclassed(g, d, a, s, t, p) && !HasRival(g, d, a, s, t, p);
    }
  }
}
