/** Removing conflicting actions by precedence, associativity, maximal munch and subset declarations. */
module ConflictResolution {
  import opened Grammars
  import opened LrMachine
  import opened Gss

  datatype AssocKind = AK_LEFT | AK_RIGHT | AK_NONASSOC | AK_NEVERASSOC | AK_SPLIT

  /** What a grammar file says about conflicts. Precedence 0 is none; `first` are the First sets of the
      nonterminals, which the analysis adds. */
  datatype Declarations = Declarations(
    prodPrec: map<nat, nat>,
    termPrec: map<nat, nat>,
    termAssoc: map<nat, AssocKind>,
    maximal: set<nat>,
    subsets: map<nat, set<nat>>,
    superset: map<nat, nat>,
    first: map<nat, set<nat>>)

  const NO_DECLARATIONS: Declarations := Declarations(map[], map[], map[], {}, map[], map[], map[])

  function ProdPrec(d: Declarations, p: nat): nat {
    if p in d.prodPrec then d.prodPrec[p] else 0
  }

  function TermPrec(d: Declarations, t: nat): nat {
    if t in d.termPrec then d.termPrec[t] else 0
  }

  function TermAssoc(d: Declarations, t: nat): AssocKind {
    if t in d.termAssoc then d.termAssoc[t] else AK_NONASSOC
  }

  // ---------------------------------------------------------------- maximal munch

  /** The nonterminal reached by `n` steps from subset to superset. */
  function Superset(d: Declarations, a: nat, n: nat): Option<nat> {
    if n == 0 then Some(a)
    else match Superset(d, a, n - 1)
      case Some(b) => if b in d.superset then Some(d.superset[b]) else None
      case None => None
  }

  ghost predicate MaximalAfter(d: Declarations, a: nat, n: nat) {
    && Superset(d, a, n).Some? && Superset(d, a, n).value in d.maximal
    && forall k: nat :: k < n && Superset(d, a, k).Some? ==> Superset(d, a, k).value !in d.maximal
  }

  /** The nearest nonterminal among `a` and its supersets that is declared maximal. */
  ghost predicate NearestMaximal(d: Declarations, a: nat, r: Option<nat>) {
    match r
    case Some(b) => exists n: nat :: MaximalAfter(d, a, n) && Superset(d, a, n) == Some(b)
    case None => forall n: nat :: !MaximalAfter(d, a, n)
  }

  /** No nonterminal is its own superset, directly or not: the search for a maximal one ends. */
  ghost predicate SupersetsEnd(d: Declarations) {
    forall a: nat :: Ends(d, a)
  }

  ghost predicate Ends(d: Declarations, a: nat) {
    exists n: nat :: EndsAfter(d, a, n)
  }

  ghost predicate EndsAfter(d: Declarations, a: nat, n: nat) {
    Superset(d, a, n) == None
  }

  lemma {:induction false} EndedStays(d: Declarations, a: nat, n: nat, m: nat)
    ensures Superset(d, a, n) == None && n <= m ==> Superset(d, a, m) == None
    decreases m
  {
    if n < m {
      EndedStays(d, a, n, m - 1);
    }
  }

  /** The First sets have no part in it. */
  lemma SupersetsStillEnd(d: Declarations, first: map<nat, set<nat>>)
    requires SupersetsEnd(d)
    ensures SupersetsEnd(d.(first := first))
  {
    forall a: nat ensures Ends(d.(first := first), a) {
      assert Ends(d, a);
      var n: nat :| EndsAfter(d, a, n);
      SameSupersets(d, first, a, n);
      assert EndsAfter(d.(first := first), a, n);
    }
  }

  lemma {:induction false} SameSupersets(d: Declarations, first: map<nat, set<nat>>, a: nat, n: nat)
    ensures Superset(d.(first := first), a, n) == Superset(d, a, n)
  {
    if n > 0 {
      SameSupersets(d, first, a, n - 1);
    }
  }

  method FindMaximal(d: Declarations, a: nat) returns (r: Option<nat>)
    requires SupersetsEnd(d)
    ensures NearestMaximal(d, a, r)
  {
    assert Ends(d, a);
    ghost var last: nat :| EndsAfter(d, a, last);
    var super := a;
    ghost var n := 0;
    while super !in d.maximal
      invariant Superset(d, a, n) == Some(super) && n < last
      invariant forall k: nat :: k < n && Superset(d, a, k).Some? ==> Superset(d, a, k).value !in d.maximal
      decreases last - n
    {
      if super !in d.superset {
        assert Superset(d, a, n + 1) == None;
        forall m: nat ensures !MaximalAfter(d, a, m) {
          EndedStays(d, a, n + 1, m);
        }
        return None;
      }
      super := d.superset[super];
      n := n + 1;
      EndedStays(d, a, last, n);
    }
    assert MaximalAfter(d, a, n);
    return Some(super);
  }

  lemma SameNumber(d: Declarations, a: nat, n: nat, m: nat)
    requires MaximalAfter(d, a, n) && MaximalAfter(d, a, m)
    ensures n == m
  {
  }

  lemma NearestIsUnique(d: Declarations, a: nat, r: Option<nat>, r': Option<nat>)
    requires NearestMaximal(d, a, r) && NearestMaximal(d, a, r')
    ensures r == r'
  {
    if r.Some? && r'.Some? {
      var n: nat :| MaximalAfter(d, a, n) && Superset(d, a, n) == r;
      var n': nat :| MaximalAfter(d, a, n') && Superset(d, a, n') == r';
      SameNumber(d, a, n, n');
    }
  }

  /** The item can go on with `t`, towards an `a`. */
  predicate ExtendsWith(g: Grammar, d: Declarations, it: Item, a: nat, t: nat) {
    && it.prod < |g.prods| && g.prods[it.prod].lhs == a
    && match AfterDot(g, it)
       case Some(T(u)) => u == t
       case Some(N(b)) => b in d.first && t in d.first[b]
       case None => false
  }

  ghost predicate HasExtendingShift(g: Grammar, d: Declarations, items: set<Item>, a: nat, t: nat) {
    exists it :: it in items && ExtendsWith(g, d, it, a, t)
  }

  method FindExtendingShift(g: Grammar, d: Declarations, items: set<Item>, a: nat, t: nat) returns (yes: bool)
    ensures yes <==> HasExtendingShift(g, d, items, a, t)
  {
    var todo := items;
    while todo != {}
      invariant todo <= items && forall it :: it in items && it !in todo ==> !ExtendsWith(g, d, it, a, t)
      decreases todo
    {
      var it :| it in todo;
      if ExtendsWith(g, d, it, a, t) {
        return true;
      }
      todo := todo - {it};
    }
    return false;
  }

  // ---------------------------------------------------------------- one shift against one reduction

  datatype Verdict = Verdict(keepShift: bool, keepReduce: bool)

  /** By precedence; between equals by the associativity of the token. */
  function ByPrecedence(prod: nat, sym: nat, assoc: AssocKind): Verdict {
    if prod == 0 || sym == 0 then Verdict(true, true)
    else if prod > sym then Verdict(false, true)
    else if prod < sym then Verdict(true, false)
    else match assoc
      case AK_LEFT => Verdict(false, true)
      case AK_RIGHT => Verdict(true, false)
      case AK_NONASSOC => Verdict(false, false)
      case _ => Verdict(true, true)
  }

  ghost predicate Munches(g: Grammar, d: Declarations, items: set<Item>, p: nat, t: nat)
    requires p < |g.prods|
  {
    exists b: nat :: NearestMaximal(d, g.prods[p].lhs, Some(b)) && HasExtendingShift(g, d, items, b, t)
  }

  /** Maximal munch goes before precedence. */
  ghost function Judge(g: Grammar, d: Declarations, items: set<Item>, p: nat, t: nat): Verdict {
    if p >= |g.prods| then Verdict(true, true)
    else if Munches(g, d, items, p, t) then Verdict(true, false)
    else ByPrecedence(ProdPrec(d, p), TermPrec(d, t), TermAssoc(d, t))
  }

  method HandleShiftReduceConflict(g: Grammar, d: Declarations, items: set<Item>, p: nat, t: nat) returns (v: Verdict)
    requires SupersetsEnd(d) && p < |g.prods|
    ensures v == Judge(g, d, items, p, t)
  {
    var super := FindMaximal(d, g.prods[p].lhs);
    if super.Some? {
      var extending := FindExtendingShift(g, d, items, super.value, t);
      if extending {
        return Verdict(true, false);
      }
    }
    forall b: nat | NearestMaximal(d, g.prods[p].lhs, Some(b)) ensures super == Some(b) {
      NearestIsUnique(d, g.prods[p].lhs, super, Some(b));
    }
    return ByPrecedence(ProdPrec(d, p), TermPrec(d, t), TermAssoc(d, t));
  }

  // ---------------------------------------------------------------- lists of reductions

  /** What is left of the reductions after the shift has been compared with one after the other; once one of
      them has removed the shift, the rest is not looked at. */
  ghost function AgainstShift(judge: nat -> Verdict, reds: seq<nat>): seq<nat> {
    if reds == [] then []
    else
      (if judge(reds[0]).keepReduce then [reds[0]] else [])
      + if judge(reds[0]).keepShift then AgainstShift(judge, reds[1..]) else reds[1..]
  }

  ghost predicate ShiftStays(judge: nat -> Verdict, reds: seq<nat>) {
    forall p :: p in reds ==> judge(p).keepShift
  }

  function Filter(keep: nat -> bool, reds: seq<nat>): seq<nat> {
    if reds == [] then [] else (if keep(reds[0]) then [reds[0]] else []) + Filter(keep, reds[1..])
  }

  lemma {:induction false} FilterKeeps(keep: nat -> bool, reds: seq<nat>, p: nat)
    ensures p in Filter(keep, reds) <==> p in reds && keep(p)
  {
    if reds != [] {
      FilterKeeps(keep, reds[1..], p);
      assert reds == [reds[0]] + reds[1..];
    }
  }

  lemma {:induction false} FilterDistinct(keep: nat -> bool, reds: seq<nat>)
    requires Distinct(reds)
    ensures Distinct(Filter(keep, reds))
  {
    if reds != [] {
      FilterDistinct(keep, reds[1..]);
      FilterKeeps(keep, reds[1..], reds[0]);
    }
  }

  ghost function Judges(g: Grammar, d: Declarations, items: set<Item>, t: nat): nat -> Verdict {
    (p: nat) => Judge(g, d, items, p, t)
  }

  /** The reductions in `kept` have been judged, those in `rest` have not; `on` says whether the shift is
      still there. */
  ghost predicate Judged(judge: nat -> Verdict, goal: seq<nat>, stays: bool, kept: seq<nat>, rest: seq<nat>, on: bool) {
    && goal == kept + (if on then AgainstShift(judge, rest) else rest)
    && (stays <==> on && ShiftStays(judge, rest))
  }

  lemma AgainstFirst(judge: nat -> Verdict, p: nat, rest: seq<nat>)
    ensures AgainstShift(judge, [p] + rest)
            == (if judge(p).keepReduce then [p] else [])
               + if judge(p).keepShift then AgainstShift(judge, rest) else rest
  {
    assert ([p] + rest)[1..] == rest;
  }

  lemma StaysFirst(judge: nat -> Verdict, p: nat, rest: seq<nat>)
    ensures ShiftStays(judge, [p] + rest) <==> judge(p).keepShift && ShiftStays(judge, rest)
  {
    forall q: nat ensures q in [p] + rest <==> q == p || q in rest {
    }
  }

  lemma JudgeNext(judge: nat -> Verdict, goal: seq<nat>, stays: bool, kept: seq<nat>, p: nat, rest: seq<nat>)
    requires Judged(judge, goal, stays, kept, [p] + rest, true)
    ensures Judged(judge, goal, stays, kept + (if judge(p).keepReduce then [p] else []), rest, judge(p).keepShift)
  {
    AgainstFirst(judge, p, rest);
    StaysFirst(judge, p, rest);
    var here := if judge(p).keepReduce then [p] else [];
    var after := if judge(p).keepShift then AgainstShift(judge, rest) else rest;
    assert kept + (here + after) == kept + here + after;
  }

  ghost predicate ProdsInGrammar(g: Grammar, reds: seq<nat>) {
    forall i :: 0 <= i < |reds| ==> reds[i] < |g.prods|
  }

  lemma SplitAt(reds: seq<nat>, kept: seq<nat>, rest: seq<nat>)
    requires reds == kept + rest && rest != []
    ensures reds[|kept|] == rest[0] && rest == [rest[0]] + rest[1..]
    ensures reds == kept + [rest[0]] + rest[1..] && reds[..|kept|] + reds[|kept| + 1..] == kept + rest[1..]
  {
  }

  /** The shift against the reductions, in the order of the list, which shrinks on the way. */
  method ResolveShiftReduce(g: Grammar, d: Declarations, items: set<Item>, t: nat, shift0: nat, reds0: seq<nat>)
      returns (shift: Option<nat>, reds: seq<nat>)
    requires SupersetsEnd(d) && ProdsInGrammar(g, reds0)
    ensures shift == if ShiftStays(Judges(g, d, items, t), reds0) then Some(shift0) else None
    ensures reds == AgainstShift(Judges(g, d, items, t), reds0)
  {
    ghost var judge := Judges(g, d, items, t);
    ghost var goal, stays := AgainstShift(judge, reds0), ShiftStays(judge, reds0);
    shift, reds := Some(shift0), reds0;
    var i := 0;
    ghost var kept: seq<nat>, rest: seq<nat> := [], reds0;
    while i < |reds| && shift.Some?
      invariant reds == kept + rest && i == |kept| && (shift.Some? ==> shift == Some(shift0)) && ProdsInGrammar(g, rest)
      invariant Judged(judge, goal, stays, kept, rest, shift.Some?)
      decreases |rest|
    {
      SplitAt(reds, kept, rest);
      JudgeNext(judge, goal, stays, kept, rest[0], rest[1..]);
      var v := HandleShiftReduceConflict(g, d, items, reds[i], t);
      if !v.keepShift {
        shift := None;
      }
      if !v.keepReduce {
        reds := reds[..i] + reds[i + 1..];
        rest := rest[1..];
        assert kept + [] == kept;
      } else {
        i := i + 1;
        kept, rest := kept + [rest[0]], rest[1..];
      }
    }
  }

  // ---------------------------------------------------------------- reductions against each other

  /** A reduction of higher precedence is possible; one without precedence is never outranked. */
  ghost predicate Outranked(d: Declarations, reds: seq<nat>, p: nat) {
    0 < ProdPrec(d, p) && exists q: nat :: q in reds && ProdPrec(d, p) < ProdPrec(d, q)
  }

  ghost function NotOutranked(d: Declarations, reds: seq<nat>): nat -> bool {
    (p: nat) => !Outranked(d, reds, p)
  }

  lemma FilterNext(keep: nat -> bool, reds: seq<nat>, i: nat)
    requires i < |reds|
    ensures Filter(keep, reds[..i + 1]) == Filter(keep, reds[..i]) + if keep(reds[i]) then [reds[i]] else []
  {
    FilterConcat(keep, reds[..i], [reds[i]]);
    assert reds[..i + 1] == reds[..i] + [reds[i]];
    assert Filter(keep, [reds[i]]) == (if keep(reds[i]) then [reds[i]] else []) + Filter(keep, []);
  }

  lemma {:induction false} FilterConcat(keep: nat -> bool, a: seq<nat>, b: seq<nat>)
    ensures Filter(keep, a + b) == Filter(keep, a) + Filter(keep, b)
  {
    if a == [] {
      assert a + b == b;
    } else {
      FilterConcat(keep, a[1..], b);
      assert (a + b)[0] == a[0] && (a + b)[1..] == a[1..] + b;
      var here: seq<nat> := if keep(a[0]) then [a[0]] else [];
      assert here + (Filter(keep, a[1..]) + Filter(keep, b)) == here + Filter(keep, a[1..]) + Filter(keep, b);
    }
  }

  method HighestPrec(d: Declarations, reds: seq<nat>) returns (highest: nat)
    ensures forall p: nat :: 0 < ProdPrec(d, p) < highest <==> Outranked(d, reds, p)
  {
    highest := 0;
    for i := 0 to |reds|
      invariant forall j :: 0 <= j < i ==> ProdPrec(d, reds[j]) <= highest
      invariant highest > 0 ==> exists q: nat :: q in reds && ProdPrec(d, q) == highest
    {
      if ProdPrec(d, reds[i]) > highest {
        highest := ProdPrec(d, reds[i]);
        assert reds[i] in reds;
      }
    }
    forall p: nat ensures 0 < ProdPrec(d, p) < highest <==> Outranked(d, reds, p) {
      if q: nat :| q in reds && ProdPrec(d, p) < ProdPrec(d, q) {
        var j :| 0 <= j < |reds| && reds[j] == q;
      }
    }
  }

  method ResolveByPrecedence(d: Declarations, reds0: seq<nat>) returns (reds: seq<nat>)
    ensures reds == Filter(NotOutranked(d, reds0), reds0)
  {
    var highest := HighestPrec(d, reds0);
    reds := [];
    for i := 0 to |reds0|
      invariant reds == Filter(NotOutranked(d, reds0), reds0[..i])
    {
      FilterNext(NotOutranked(d, reds0), reds0, i);
      if !(0 < ProdPrec(d, reds0[i]) < highest) {
        reds := reds + [reds0[i]];
      }
    }
    assert reds0[..|reds0|] == reds0;
  }

  /** The left-hand side of another reduction is declared a subset of that of `p`. */
  ghost predicate HasSubset(g: Grammar, d: Declarations, reds: seq<nat>, p: nat) {
    p < |g.prods| && g.prods[p].lhs in d.subsets
    && exists q: nat :: q in reds && q < |g.prods| && g.prods[q].lhs in d.superset
         && g.prods[q].lhs in d.subsets[g.prods[p].lhs]
  }

  ghost function NoSubset(g: Grammar, d: Declarations, reds: seq<nat>): nat -> bool {
    (p: nat) => !HasSubset(g, d, reds, p)
  }

  method LeftSidesWithSuperset(g: Grammar, d: Declarations, reds: seq<nat>) returns (lefts: set<nat>)
    requires ProdsInGrammar(g, reds)
    ensures forall b: nat :: b in lefts <==>
              exists q: nat :: q in reds && q < |g.prods| && g.prods[q].lhs == b && b in d.superset
  {
    lefts := {};
    for i := 0 to |reds|
      invariant forall b: nat :: b in lefts <==> exists j :: 0 <= j < i && g.prods[reds[j]].lhs == b && b in d.superset
    {
      if g.prods[reds[i]].lhs in d.superset {
        lefts := lefts + {g.prods[reds[i]].lhs};
      }
    }
    forall b: nat
      ensures b in lefts <==> exists q: nat :: q in reds && q < |g.prods| && g.prods[q].lhs == b && b in d.superset
    {
      if b in lefts {
        var j :| 0 <= j < |reds| && g.prods[reds[j]].lhs == b && b in d.superset;
        assert reds[j] in reds;
      }
    }
  }

  method SubsetDirectiveResolution(g: Grammar, d: Declarations, reds0: seq<nat>) returns (reds: seq<nat>)
    requires ProdsInGrammar(g, reds0)
    ensures reds == Filter(NoSubset(g, d, reds0), reds0)
  {
    var lefts := LeftSidesWithSuperset(g, d, reds0);
    reds := [];
    for i := 0 to |reds0|
      invariant reds == Filter(NoSubset(g, d, reds0), reds0[..i])
    {
      FilterNext(NoSubset(g, d, reds0), reds0, i);
      var a := g.prods[reds0[i]].lhs;
      if a !in d.subsets || d.subsets[a] !! lefts {
        reds := reds + [reds0[i]];
      }
    }
    assert reds0[..|reds0|] == reds0;
  }

  /** The production that comes first in the grammar. */
  ghost predicate FirstOf(reds: seq<nat>, p: nat) {
    p in reds && forall q: nat :: q in reds ==> p <= q
  }

  /** Every member of `all` has one in `reds` that is not later. */
  ghost predicate Leaves(all: seq<nat>, reds: seq<nat>) {
    && (forall q: nat :: q in reds ==> q in all)
    && forall q: nat :: q in all ==> HasNotLater(reds, q)
  }

  ghost predicate HasNotLater(reds: seq<nat>, q: nat) {
    exists r: nat :: r in reds && r <= q
  }

  lemma LeavesOn(all: seq<nat>, reds: seq<nat>, fewer: seq<nat>)
    requires Leaves(all, reds) && Leaves(reds, fewer)
    ensures Leaves(all, fewer)
  {
    forall q: nat | q in all ensures HasNotLater(fewer, q) {
      var r: nat :| r in reds && r <= q;
      assert HasNotLater(fewer, r);
    }
  }

  lemma DropLater(a: nat, b: nat, rest: seq<nat>)
    ensures a <= b ==> Leaves([a, b] + rest, [a] + rest)
    ensures b <= a ==> Leaves([a, b] + rest, [b] + rest)
  {
    forall q: nat | q in [a, b] + rest
      ensures a <= b ==> HasNotLater([a] + rest, q)
      ensures b <= a ==> HasNotLater([b] + rest, q)
    {
      assert q == a || q == b || q in rest;
      assert a in [a] + rest && b in [b] + rest && (q in rest ==> q in [a] + rest && q in [b] + rest);
    }
  }

  /** Of the first two productions the later one goes. */
  method DropOne(reds: seq<nat>) returns (fewer: seq<nat>)
    requires |reds| >= 2
    ensures |fewer| == |reds| - 1 && Leaves(reds, fewer)
  {
    DropLater(reds[0], reds[1], reds[2..]);
    assert reds == [reds[0], reds[1]] + reds[2..];
    fewer := if reds[0] < reds[1] then [reds[0]] + reds[2..] else [reds[1]] + reds[2..];
  }

  lemma LeavesAll(reds: seq<nat>)
    ensures Leaves(reds, reds)
  {
    forall q: nat | q in reds ensures HasNotLater(reds, q) {
    }
  }

  lemma OneLeft(all: seq<nat>, p: nat)
    requires Leaves(all, [p])
    ensures FirstOf(all, p)
  {
    assert p in [p];
    forall q: nat | q in all ensures p <= q {
      assert HasNotLater([p], q);
    }
  }

  method PreferFirst(reds0: seq<nat>) returns (p: nat)
    requires reds0 != []
    ensures FirstOf(reds0, p)
  {
    var reds := reds0;
    LeavesAll(reds0);
    while |reds| >= 2
      invariant |reds| >= 1 && Leaves(reds0, reds)
      decreases |reds|
    {
      ghost var was := reds;
      reds := DropOne(reds);
      LeavesOn(reds0, was, reds);
    }
    p := reds[0];
    assert reds == [p];
    OneLeft(reds0, p);
  }

  // ---------------------------------------------------------------- one cell

  datatype Choice = Choice(shift: Option<nat>, reds: seq<nat>)

  function Actions(c: Choice): nat {
    |c.reds| + if c.shift.Some? then 1 else 0
  }

  /** What the declarations leave of the possible actions. */
  ghost function ByDeclarations(g: Grammar, d: Declarations, items: set<Item>, t: nat, c: Choice): Choice {
    var judge := Judges(g, d, items, t);
    var reds1 := if c.shift.Some? then AgainstShift(judge, c.reds) else c.reds;
    var reds2 := Filter(NotOutranked(d, reds1), reds1);
    var reds3 := if |reds2| > 1 then Filter(NoSubset(g, d, reds2), reds2) else reds2;
    Choice(if ShiftStays(judge, c.reds) then c.shift else None, reds3)
  }

  /** Without ambiguity a shift goes before all reductions, and an earlier production before a later one. */
  ghost predicate Resolves(g: Grammar, d: Declarations, items: set<Item>, t: nat, c: Choice, allowAmbig: bool,
                           r: Choice) {
    var left := ByDeclarations(g, d, items, t, c);
    if allowAmbig || Actions(left) <= 1 then r == left
    else if left.shift.Some? then r == Choice(left.shift, [])
    else r.shift == None && |r.reds| == 1 && FirstOf(left.reds, r.reds[0])
  }

  lemma {:induction false} AgainstShiftRemoves(judge: nat -> Verdict, reds: seq<nat>)
    ensures forall p: nat :: p in AgainstShift(judge, reds) ==> p in reds
    ensures Distinct(reds) ==> Distinct(AgainstShift(judge, reds))
  {
    if reds != [] {
      AgainstShiftRemoves(judge, reds[1..]);
      assert reds == [reds[0]] + reds[1..];
      if Distinct(reds) {
        assert Distinct(reds[1..]) && reds[0] !in reds[1..];
      }
    }
  }

  lemma FilterRemoves(keep: nat -> bool, reds: seq<nat>)
    ensures forall p: nat :: p in Filter(keep, reds) ==> p in reds && keep(p)
    ensures forall p: nat :: p in reds && keep(p) ==> p in Filter(keep, reds)
    ensures Distinct(reds) ==> Distinct(Filter(keep, reds))
  {
    forall p: nat ensures p in Filter(keep, reds) <==> p in reds && keep(p) {
      FilterKeeps(keep, reds, p);
    }
    if Distinct(reds) {
      FilterDistinct(keep, reds);
    }
  }

  lemma {:induction false} FilterAll(keep: nat -> bool, reds: seq<nat>)
    requires forall p: nat :: p in reds ==> keep(p)
    ensures Filter(keep, reds) == reds
  {
    if reds != [] {
      FilterAll(keep, reds[1..]);
      assert reds == [reds[0]] + reds[1..];
    }
  }

  lemma AloneIsNotOutranked(d: Declarations, reds: seq<nat>)
    requires |reds| <= 1
    ensures Filter(NotOutranked(d, reds), reds) == reds
  {
    FilterAll(NotOutranked(d, reds), reds);
  }

  lemma OneActionStays(g: Grammar, d: Declarations, items: set<Item>, t: nat, c: Choice)
    requires Actions(c) <= 1
    ensures ByDeclarations(g, d, items, t, c) == c
  {
    AloneIsNotOutranked(d, c.reds);
  }

  lemma MembersStay(g: Grammar, all: seq<nat>, some: seq<nat>)
    requires ProdsInGrammar(g, all) && forall p: nat :: p in some ==> p in all
    ensures ProdsInGrammar(g, some)
  {
    forall i | 0 <= i < |some| ensures some[i] < |g.prods| {
      assert some[i] in all;
    }
  }

  /** All declarations in turn, then one action if there must be no more. */
  method ResolveConflicts(g: Grammar, d: Declarations, items: set<Item>, t: nat, c: Choice, allowAmbig: bool)
      returns (r: Choice)
    requires SupersetsEnd(d) && ProdsInGrammar(g, c.reds)
    ensures Resolves(g, d, items, t, c, allowAmbig, r)
  {
    if Actions(c) <= 1 {
      OneActionStays(g, d, items, t, c);
      return c;
    }
    var shift, reds := c.shift, c.reds;
    if shift.Some? {
      shift, reds := ResolveShiftReduce(g, d, items, t, c.shift.value, c.reds);
      AgainstShiftRemoves(Judges(g, d, items, t), c.reds);
      MembersStay(g, c.reds, reds);
    }
    reds := ResolveReductions(g, d, reds);
    r := ForceOne(Choice(shift, reds), allowAmbig);
  }

  method ResolveReductions(g: Grammar, d: Declarations, reds0: seq<nat>) returns (reds: seq<nat>)
    requires ProdsInGrammar(g, reds0)
    ensures var reds2 := Filter(NotOutranked(d, reds0), reds0);
            reds == if |reds2| > 1 then Filter(NoSubset(g, d, reds2), reds2) else reds2
  {
    reds := reds0;
    if |reds| > 1 {
      reds := ResolveByPrecedence(d, reds);
      FilterRemoves(NotOutranked(d, reds0), reds0);
      MembersStay(g, reds0, reds);
    } else {
      AloneIsNotOutranked(d, reds0);
    }
    if |reds| > 1 {
      reds := SubsetDirectiveResolution(g, d, reds);
    }
  }

  method ForceOne(c: Choice, allowAmbig: bool) returns (r: Choice)
    ensures if allowAmbig || Actions(c) <= 1 then r == c
            else if c.shift.Some? then r == Choice(c.shift, [])
            else r.shift == None && |r.reds| == 1 && FirstOf(c.reds, r.reds[0])
  {
    r := c;
    if !allowAmbig && Actions(c) > 1 {
      if c.shift.Some? {
        r := Choice(c.shift, []);
      } else {
        var p := PreferFirst(c.reds);
        r := Choice(None, [p]);
      }
    }
  }

  /** Only actions that were possible are left. */
  lemma OnlyRemoves(g: Grammar, d: Declarations, items: set<Item>, t: nat, c: Choice, allowAmbig: bool, r: Choice)
    requires Resolves(g, d, items, t, c, allowAmbig, r)
    ensures (r.shift == None || r.shift == c.shift) && (forall p: nat :: p in r.reds ==> p in c.reds)
    ensures Distinct(c.reds) ==> Distinct(r.reds)
    ensures !allowAmbig ==> Actions(r) <= 1
  {
    var judge := Judges(g, d, items, t);
    var reds1 := if c.shift.Some? then AgainstShift(judge, c.reds) else c.reds;
    var reds2 := Filter(NotOutranked(d, reds1), reds1);
    AgainstShiftRemoves(judge, c.reds);
    FilterRemoves(NotOutranked(d, reds1), reds1);
    FilterRemoves(NoSubset(g, d, reds2), reds2);
  }

  /** The grammar file says nothing that could decide a conflict. */
  ghost predicate Undeclared(d: Declarations) {
    (forall p: nat :: ProdPrec(d, p) == 0) && d.maximal == {} && d.subsets == map[]
  }

  lemma {:induction false} AllSurvive(judge: nat -> Verdict, reds: seq<nat>)
    requires forall p: nat :: p in reds ==> judge(p) == Verdict(true, true)
    ensures AgainstShift(judge, reds) == reds && ShiftStays(judge, reds)
  {
    if reds != [] {
      AllSurvive(judge, reds[1..]);
      assert reds == [reds[0]] + reds[1..];
    }
  }

  /** Without declarations all actions are left. */
  lemma UndeclaredKeepsAll(g: Grammar, d: Declarations, items: set<Item>, t: nat, c: Choice, r: Choice)
    requires Undeclared(d) && Resolves(g, d, items, t, c, true, r)
    ensures r == c
  {
    forall p: nat ensures Judge(g, d, items, p, t) == Verdict(true, true) {
    }
    AllSurvive(Judges(g, d, items, t), c.reds);
    FilterAll(NotOutranked(d, c.reds), c.reds);
    FilterAll(NoSubset(g, d, c.reds), c.reds);
  }

  // ---------------------------------------------------------------- the order of the list

  /** The reductions of `all`, each once, in some order. */
  ghost predicate Lists(reds: seq<nat>, all: set<nat>) {
    Distinct(reds) && forall p: nat :: p in reds <==> p in all
  }

  /** What precedence and associativity leave of the reductions that conflict with a shift. */
  ghost function Left(judge: nat -> Verdict, d: Declarations, reds: seq<nat>): seq<nat> {
    var reds1 := AgainstShift(judge, reds);
    Filter(NotOutranked(d, reds1), reds1)
  }

  ghost predicate SameMembers(a: seq<nat>, b: seq<nat>) {
    forall p: nat :: p in a <==> p in b
  }

  ghost predicate AnyOrder(judge: nat -> Verdict, d: Declarations, all: set<nat>) {
    forall a: seq<nat>, b: seq<nat> :: Lists(a, all) && Lists(b, all) ==>
      SameMembers(Left(judge, d, a), Left(judge, d, b))
  }

  /** A reduction that never loses to the shift outranks `p`. */
  ghost predicate OutrankedByWinner(judge: nat -> Verdict, d: Declarations, all: set<nat>, p: nat) {
    0 < ProdPrec(d, p) && exists q: nat :: q in all && judge(q).keepReduce && ProdPrec(d, p) < ProdPrec(d, q)
  }

  /** Whatever loses to the shift, but is spared once another one has removed the shift, loses all the same. */
  ghost predicate NothingSpared(judge: nat -> Verdict, d: Declarations, all: set<nat>) {
    forall p: nat, q: nat :: p in all && q in all && p != q && !judge(p).keepReduce && !judge(q).keepShift ==>
      OutrankedByWinner(judge, d, all, p)
  }

  ghost predicate DroppedBefore(judge: nat -> Verdict, reds: seq<nat>, i: nat)
    requires i <= |reds|
  {
    exists j :: 0 <= j < i && !judge(reds[j]).keepShift
  }

  lemma DroppedFirst(judge: nat -> Verdict, reds: seq<nat>, i: nat)
    requires 0 < i <= |reds|
    ensures DroppedBefore(judge, reds, i) <==> !judge(reds[0]).keepShift || DroppedBefore(judge, reds[1..], i - 1)
  {
    var rest := reds[1..];
    forall j | 0 < j < i ensures rest[j - 1] == reds[j] {
    }
    if DroppedBefore(judge, rest, i - 1) {
      var j :| 0 <= j < i - 1 && !judge(rest[j]).keepShift;
      assert !judge(reds[j + 1]).keepShift;
    }
  }

  /** A reduction survives the shift if it does not lose, or comes after one that has removed the shift. */
  lemma {:induction false} SurvivesShift(judge: nat -> Verdict, reds: seq<nat>, i: nat)
    requires Distinct(reds) && i < |reds|
    ensures reds[i] in AgainstShift(judge, reds) <==> judge(reds[i]).keepReduce || DroppedBefore(judge, reds, i)
    decreases i
  {
    TailOfDistinct(reds);
    AgainstShiftRemoves(judge, reds[1..]);
    if i > 0 {
      assert reds[i] == reds[1..][i - 1] && reds[i] in reds[1..];
      DroppedFirst(judge, reds, i);
      SurvivesShift(judge, reds[1..], i - 1);
    }
  }

  lemma TailOfDistinct(reds: seq<nat>)
    requires Distinct(reds) && reds != []
    ensures Distinct(reds[1..]) && reds[0] !in reds[1..] && reds == [reds[0]] + reds[1..]
  {
  }

  lemma {:induction false} WinnersSurvive(judge: nat -> Verdict, reds: seq<nat>, p: nat)
    requires p in reds && judge(p).keepReduce
    ensures p in AgainstShift(judge, reds)
  {
    assert reds == [reds[0]] + reds[1..];
    if p != reds[0] && judge(reds[0]).keepShift {
      WinnersSurvive(judge, reds[1..], p);
    }
  }

  lemma {:induction false} SparedByAnother(judge: nat -> Verdict, reds: seq<nat>, p: nat) returns (q: nat)
    requires Distinct(reds) && p in AgainstShift(judge, reds) && !judge(p).keepReduce
    ensures q in reds && q != p && !judge(q).keepShift
  {
    TailOfDistinct(reds);
    AgainstShiftRemoves(judge, reds[1..]);
    if judge(reds[0]).keepShift {
      q := SparedByAnother(judge, reds[1..], p);
    } else {
      q := reds[0];
    }
  }

  /** If nothing is spared, the winners that no other winner outranks are left, whatever the order. */
  lemma WinnersAreLeft(judge: nat -> Verdict, d: Declarations, all: set<nat>, reds: seq<nat>, p: nat)
    requires Lists(reds, all) && NothingSpared(judge, d, all)
    ensures p in Left(judge, d, reds) <==> p in all && judge(p).keepReduce && !OutrankedByWinner(judge, d, all, p)
  {
    var reds1 := AgainstShift(judge, reds);
    AgainstShiftRemoves(judge, reds);
    FilterKeeps(NotOutranked(d, reds1), reds1, p);
    forall q: nat | q in all && judge(q).keepReduce ensures q in reds1 {
      WinnersSurvive(judge, reds, q);
    }
    forall q: nat | q in reds1 && !judge(q).keepReduce ensures OutrankedByWinner(judge, d, all, q) {
      var r := SparedByAnother(judge, reds, q);
    }
  }

  lemma {:induction false} ListOf(all: set<nat>) returns (reds: seq<nat>)
    ensures Lists(reds, all)
  {
    if all == {} {
      reds := [];
    } else {
      var p :| p in all;
      var rest := ListOf(all - {p});
      reds := [p] + rest;
    }
  }

  lemma ListWith(p: nat, rest: seq<nat>, all: set<nat>)
    requires p in all && Lists(rest, all - {p})
    ensures Lists([p] + rest, all)
  {
    forall i | 0 <= i < |rest| ensures rest[i] != p {
      assert rest[i] in rest;
    }
  }

  /** One that loses to the shift, other than `q`, of highest precedence. */
  lemma {:induction false} HighestLoser(d: Declarations, losers: set<nat>, p: nat) returns (l: nat)
    requires p in losers
    ensures l in losers && forall r: nat :: r in losers ==> ProdPrec(d, r) <= ProdPrec(d, l)
    decreases losers
  {
    if r: nat :| r in losers && ProdPrec(d, r) > ProdPrec(d, p) {
      var higher := set x | x in losers && ProdPrec(d, x) > ProdPrec(d, p);
      l := HighestLoser(d, higher, r);
    } else {
      l := p;
    }
  }

  /** Placed first, it is removed; placed after `q`, it stays. */
  lemma OrderDecides(judge: nat -> Verdict, d: Declarations, all: set<nat>, l: nat, q: nat)
    requires l in all && q in all && l != q && !judge(l).keepReduce && !judge(q).keepShift
    requires ProdPrec(d, l) == 0 || forall r: nat :: r in all && (judge(r).keepReduce || r != q) ==>
               ProdPrec(d, r) <= ProdPrec(d, l)
    ensures !AnyOrder(judge, d, all)
  {
    var rest := ListOf(all - {l});
    var first := [l] + rest;
    ListWith(l, rest, all);
    var others := ListOf(all - {q} - {l});
    var second := [q, l] + others;
    ListWith(l, others, all - {q});
    ListWith(q, [l] + others, all);
    assert second == [q] + ([l] + others);
    NotLeftFirst(judge, d, l, rest);
    LeftSecond(judge, d, l, q, others, all);
    assert !SameMembers(Left(judge, d, first), Left(judge, d, second));
  }

  lemma NotLeftFirst(judge: nat -> Verdict, d: Declarations, l: nat, rest: seq<nat>)
    requires Distinct([l] + rest) && !judge(l).keepReduce
    ensures l !in Left(judge, d, [l] + rest)
  {
    var reds := [l] + rest;
    TailOfDistinct(reds);
    assert reds[1..] == rest;
    AgainstShiftRemoves(judge, rest);
    var reds1 := AgainstShift(judge, reds);
    FilterKeeps(NotOutranked(d, reds1), reds1, l);
  }

  lemma LeftSecond(judge: nat -> Verdict, d: Declarations, l: nat, q: nat, others: seq<nat>, all: set<nat>)
    requires Lists([q, l] + others, all) && !judge(q).keepShift
    requires ProdPrec(d, l) == 0 || forall r: nat :: r in all && (judge(r).keepReduce || r != q) ==>
               ProdPrec(d, r) <= ProdPrec(d, l)
    ensures l in Left(judge, d, [q, l] + others)
  {
    var reds := [q, l] + others;
    TailOfDistinct(reds);
    assert reds[1..] == [l] + others;
    var reds1 := AgainstShift(judge, reds);
    assert reds1 == (if judge(q).keepReduce then [q] else []) + ([l] + others);
    FilterKeeps(NotOutranked(d, reds1), reds1, l);
    forall r: nat | r in reds1 ensures r in all && (judge(r).keepReduce || r != q) {
      assert r in reds;
    }
  }

  /** The order in which the reductions are listed makes no difference, exactly if nothing is spared. */
  lemma OrderMatters(judge: nat -> Verdict, d: Declarations, all: set<nat>)
    ensures AnyOrder(judge, d, all) <==> NothingSpared(judge, d, all)
  {
    if NothingSpared(judge, d, all) {
      forall a: seq<nat>, b: seq<nat> | Lists(a, all) && Lists(b, all)
        ensures SameMembers(Left(judge, d, a), Left(judge, d, b))
      {
        forall p: nat ensures p in Left(judge, d, a) <==> p in Left(judge, d, b) {
          WinnersAreLeft(judge, d, all, a, p);
          WinnersAreLeft(judge, d, all, b, p);
        }
      }
    } else {
      var p: nat, q: nat :| p in all && q in all && p != q && !judge(p).keepReduce && !judge(q).keepShift
                            && !OutrankedByWinner(judge, d, all, p);
      if ProdPrec(d, p) == 0 {
        OrderDecides(judge, d, all, p, q);
      } else {
        var losers := set r | r in all && !judge(r).keepReduce && r != q;
        var l := HighestLoser(d, losers, p);
        OrderDecides(judge, d, all, l, q);
      }
    }
  }

  /** With precedence and left or right associativity alone, the order never matters. */
  lemma LeftAndRightNeedNoOrder(g: Grammar, d: Declarations, items: set<Item>, t: nat, all: set<nat>)
    requires d.maximal == {} && (TermPrec(d, t) == 0 || TermAssoc(d, t) != AK_NONASSOC)
    ensures AnyOrder(Judges(g, d, items, t), d, all)
  {
    var judge := Judges(g, d, items, t);
    forall p: nat, q: nat | p in all && q in all && p != q && !judge(p).keepReduce && !judge(q).keepShift
      ensures OutrankedByWinner(judge, d, all, p)
    {
      assert judge(q).keepReduce && ProdPrec(d, p) < ProdPrec(d, q);
    }
    OrderMatters(judge, d, all);
  }
}
