/** Numbering the states so that those entered by one symbol follow each other, as the encoding of the
    tables needs it. */
module StateNumbering {
  import opened Grammars
  import opened LrMachine
  import opened Gss
  import opened FiniteSets
  import opened ItemClosure
  import opened LrItemSets
  import opened LrConstruction
  import opened TableBuilding

  // ---------------------------------------------------------------- the comparison

  /** What two states are compared by. How states that agree on symbol and transitions compare is `tie`. */
  datatype Comparison = Comparison(
    symbols: seq<Option<Symbol>>,
    trans: map<(nat, Symbol), nat>,
    numTerms: nat,
    numNonterms: nat,
    tie: (nat, nat) -> int)

  ghost predicate BreaksTies(tie: (nat, nat) -> int) {
    forall l: nat, r: nat :: tie(l, r) < 0 <==> tie(r, l) > 0
  }

  function Bit(b: bool): int {
    if b then 1 else 0
  }

  function SymbolIndex(x: Symbol): nat {
    if x.T? then x.t else x.n
  }

  /** No symbol, then the terminals, then the nonterminals, each by number. */
  function SymbolDiff(ls: Option<Symbol>, rs: Option<Symbol>): int {
    if ls.None? || rs.None? then Bit(ls.Some?) - Bit(rs.Some?)
    else if ls.value.N? != rs.value.N? then Bit(ls.value.N?) - Bit(rs.value.N?)
    else SymbolIndex(ls.value) - SymbolIndex(rs.value)
  }

  function DestDiff(trans: map<(nat, Symbol), nat>, left: nat, right: nat, x: Symbol): int {
    var ldest, rdest := (left, x) in trans, (right, x) in trans;
    if ldest && rdest then trans[(left, x)] - trans[(right, x)] else Bit(!ldest) - Bit(!rdest)
  }

  ghost function SymbolAt(cmp: Comparison, i: nat): Symbol {
    if i < cmp.numTerms then T(i) else N(i - cmp.numTerms)
  }

  /** The first difference among the transitions from the `i`th symbol on. */
  ghost function DestsDiff(cmp: Comparison, left: nat, right: nat, i: nat): int
    decreases cmp.numTerms + cmp.numNonterms - i
  {
    if i >= cmp.numTerms + cmp.numNonterms then 0
    else if DestDiff(cmp.trans, left, right, SymbolAt(cmp, i)) != 0 then
      DestDiff(cmp.trans, left, right, SymbolAt(cmp, i))
    else DestsDiff(cmp, left, right, i + 1)
  }

  ghost function StatesDiff(cmp: Comparison, left: nat, right: nat): int
    requires left < |cmp.symbols| && right < |cmp.symbols|
  {
    if left == right then 0
    else if SymbolDiff(cmp.symbols[left], cmp.symbols[right]) != 0 then
      SymbolDiff(cmp.symbols[left], cmp.symbols[right])
    else if DestsDiff(cmp, left, right, 0) != 0 then DestsDiff(cmp, left, right, 0)
    else cmp.tie(left, right)
  }

  lemma {:induction false} DestsDiffSwap(cmp: Comparison, left: nat, right: nat, i: nat)
    ensures DestsDiff(cmp, right, left, i) == -DestsDiff(cmp, left, right, i)
    decreases cmp.numTerms + cmp.numNonterms - i
  {
    if i < cmp.numTerms + cmp.numNonterms {
      DestsDiffSwap(cmp, left, right, i + 1);
    }
  }

  lemma StatesDiffSwap(cmp: Comparison, left: nat, right: nat)
    requires BreaksTies(cmp.tie) && left < |cmp.symbols| && right < |cmp.symbols|
    ensures StatesDiff(cmp, left, right) < 0 <==> StatesDiff(cmp, right, left) > 0
  {
    DestsDiffSwap(cmp, left, right, 0);
  }

  // ---------------------------------------------------------------- what the comparison means

  /** The two states have the same transitions on the first `i` symbols, and not on the next. */
  ghost predicate DifferFirstAt(cmp: Comparison, left: nat, right: nat, i: nat) {
    && i < cmp.numTerms + cmp.numNonterms && !AlikeOn(cmp.trans, left, right, SymbolAt(cmp, i))
    && forall j: nat :: j < i ==> AlikeOn(cmp.trans, left, right, SymbolAt(cmp, j))
  }

  ghost predicate AlikeOn(trans: map<(nat, Symbol), nat>, left: nat, right: nat, x: Symbol) {
    && ((left, x) in trans <==> (right, x) in trans)
    && ((left, x) in trans ==> trans[(left, x)] == trans[(right, x)])
  }

  /** On `x` the left state has the only transition, or the one to the smaller old number. */
  ghost predicate FirstOn(trans: map<(nat, Symbol), nat>, left: nat, right: nat, x: Symbol) {
    (left, x) in trans && ((right, x) in trans ==> trans[(left, x)] < trans[(right, x)])
  }

  lemma {:induction false} FirstDifferenceDecides(cmp: Comparison, left: nat, right: nat, i: nat, j: nat)
    requires DifferFirstAt(cmp, left, right, i) && j <= i
    ensures DestsDiff(cmp, left, right, j) != 0
    ensures DestsDiff(cmp, left, right, j) < 0 <==> FirstOn(cmp.trans, left, right, SymbolAt(cmp, i))
    decreases i - j
  {
    if j < i {
      assert AlikeOn(cmp.trans, left, right, SymbolAt(cmp, j));
      FirstDifferenceDecides(cmp, left, right, i, j + 1);
    }
  }

  /** Of two states entered by one symbol the one goes first that, on the first symbol on which their
      transitions differ, has the only transition or the one to the smaller number. */
  ghost predicate DecidedByTransitions(cmp: Comparison, left: nat, right: nat, ret: int)
    requires left < |cmp.symbols| && right < |cmp.symbols|
  {
    forall i: nat :: cmp.symbols[left] == cmp.symbols[right] && DifferFirstAt(cmp, left, right, i) ==>
      ret != 0 && (ret < 0 <==> FirstOn(cmp.trans, left, right, SymbolAt(cmp, i)))
  }

  lemma DiffIsDecided(cmp: Comparison, left: nat, right: nat)
    requires left < |cmp.symbols| && right < |cmp.symbols|
    ensures DecidedByTransitions(cmp, left, right, StatesDiff(cmp, left, right))
  {
    forall i: nat | cmp.symbols[left] == cmp.symbols[right] && DifferFirstAt(cmp, left, right, i)
      ensures StatesDiff(cmp, left, right) != 0
      ensures StatesDiff(cmp, left, right) < 0 <==> FirstOn(cmp.trans, left, right, SymbolAt(cmp, i))
    {
      FirstDifferenceDecides(cmp, left, right, i, 0);
    }
  }

  /** Being before by transitions carries over from neighbour to neighbour. */
  lemma {:induction false} DestsDiffTrans(cmp: Comparison, a: nat, b: nat, c: nat, i: nat)
    requires DestsDiff(cmp, a, b, i) <= 0 && DestsDiff(cmp, b, c, i) <= 0
    ensures DestsDiff(cmp, a, c, i) <= 0
    decreases cmp.numTerms + cmp.numNonterms - i
  {
    if i < cmp.numTerms + cmp.numNonterms {
      var x := SymbolAt(cmp, i);
      if DestDiff(cmp.trans, a, b, x) == 0 && DestDiff(cmp.trans, b, c, x) == 0 {
        DestsDiffTrans(cmp, a, b, c, i + 1);
      }
    }
  }

  method RenumberStatesDiff(cmp: Comparison, left: nat, right: nat) returns (ret: int)
    requires left < |cmp.symbols| && right < |cmp.symbols|
    ensures ret == StatesDiff(cmp, left, right)
    ensures DecidedByTransitions(cmp, left, right, ret)
  {
    DiffIsDecided(cmp, left, right);
    if left == right {
      return 0;
    }
    ret := SymbolDiff(cmp.symbols[left], cmp.symbols[right]);
    if ret != 0 {
      return;
    }
    for t := 0 to cmp.numTerms
      invariant DestsDiff(cmp, left, right, 0) == DestsDiff(cmp, left, right, t)
    {
      ret := DestDiff(cmp.trans, left, right, T(t));
      if ret != 0 {
        return;
      }
    }
    for nt := 0 to cmp.numNonterms
      invariant DestsDiff(cmp, left, right, 0) == DestsDiff(cmp, left, right, cmp.numTerms + nt)
    {
      ret := DestDiff(cmp.trans, left, right, N(nt));
      if ret != 0 {
        return;
      }
    }
    ret := cmp.tie(left, right);
  }

  // ---------------------------------------------------------------- sorting

  ghost predicate InRange(cmp: Comparison, list: seq<nat>) {
    forall i :: 0 <= i < |list| ==> list[i] < |cmp.symbols|
  }

  /** No state is after one that it should be before. */
  ghost predicate InOrder(cmp: Comparison, list: seq<nat>) {
    && InRange(cmp, list)
    && forall i, j :: 0 <= i < j < |list| && j == i + 1 ==> StatesDiff(cmp, list[i], list[j]) <= 0
  }

  ghost predicate SameStates(a: seq<nat>, b: seq<nat>) {
    multiset(a) == multiset(b)
  }

  /** The states of `list` are merged or still in one of the halves, and either half may go on from here. */
  ghost predicate Merging(cmp: Comparison, list: seq<nat>, merged: seq<nat>, a: seq<nat>, b: seq<nat>) {
    SameStates(list, merged + a + b) && InOrder(cmp, merged + a) && InOrder(cmp, merged + b)
  }

  lemma MergingSwap(cmp: Comparison, list: seq<nat>, merged: seq<nat>, a: seq<nat>, b: seq<nat>)
    requires Merging(cmp, list, merged, a, b)
    ensures Merging(cmp, list, merged, b, a)
  {
  }

  lemma TakeOne(cmp: Comparison, list: seq<nat>, merged: seq<nat>, a: seq<nat>, b: seq<nat>)
    requires a != [] && b != [] && Merging(cmp, list, merged, a, b)
    requires a[0] < |cmp.symbols| && b[0] < |cmp.symbols| && StatesDiff(cmp, a[0], b[0]) <= 0
    ensures Merging(cmp, list, merged + [a[0]], a[1..], b)
  {
    var longer := merged + [a[0]];
    assert longer + a[1..] == merged + a && a == [a[0]] + a[1..];
    assert merged + a + b == longer + a[1..] + b;
    forall i | 0 <= i < |longer + b| ensures (longer + b)[i] < |cmp.symbols| {
      assert (longer + b)[i] == if i < |longer| then (merged + a)[i] else (merged + b)[i - 1];
    }
    forall i, j | 0 <= i < j < |longer + b| && j == i + 1
      ensures StatesDiff(cmp, (longer + b)[i], (longer + b)[j]) <= 0
    {
      if j < |longer| {
        assert (longer + b)[i] == (merged + a)[i] && (longer + b)[j] == (merged + a)[j];
      } else if i >= |longer| {
        assert (longer + b)[i] == (merged + b)[i - 1] && (longer + b)[j] == (merged + b)[j - 1];
      }
    }
  }

  lemma MergeDone(cmp: Comparison, list: seq<nat>, merged: seq<nat>, a: seq<nat>, b: seq<nat>)
    requires Merging(cmp, list, merged, a, b) && (a == [] || b == [])
    ensures SameStates(list, merged + a + b) && InOrder(cmp, merged + a + b)
  {
    assert merged + a + b == if a == [] then merged + b else merged + a;
  }

  method Merge(cmp: Comparison, left: seq<nat>, right: seq<nat>) returns (merged: seq<nat>)
    requires BreaksTies(cmp.tie) && InOrder(cmp, left) && InOrder(cmp, right)
    ensures SameStates(left + right, merged) && InOrder(cmp, merged)
  {
    var leftHalf, rightHalf := left, right;
    merged := [];
    assert [] + left == left && [] + right == right;
    while leftHalf != [] && rightHalf != []
      invariant Merging(cmp, left + right, merged, leftHalf, rightHalf)
      decreases |leftHalf| + |rightHalf|
    {
      HeadsInRange(cmp, merged, leftHalf, rightHalf);
      var diff := RenumberStatesDiff(cmp, leftHalf[0], rightHalf[0]);
      StatesDiffSwap(cmp, leftHalf[0], rightHalf[0]);
      if diff < 0 {
        TakeOne(cmp, left + right, merged, leftHalf, rightHalf);
        merged := merged + [leftHalf[0]];
        leftHalf := leftHalf[1..];
      } else {
        MergingSwap(cmp, left + right, merged, leftHalf, rightHalf);
        TakeOne(cmp, left + right, merged, rightHalf, leftHalf);
        MergingSwap(cmp, left + right, merged + [rightHalf[0]], rightHalf[1..], leftHalf);
        merged := merged + [rightHalf[0]];
        rightHalf := rightHalf[1..];
      }
    }
    MergeDone(cmp, left + right, merged, leftHalf, rightHalf);
    merged := merged + leftHalf + rightHalf;
  }

  lemma HeadsInRange(cmp: Comparison, merged: seq<nat>, a: seq<nat>, b: seq<nat>)
    requires InRange(cmp, merged + a) && InRange(cmp, merged + b) && a != [] && b != []
    ensures a[0] < |cmp.symbols| && b[0] < |cmp.symbols|
  {
    assert (merged + a)[|merged|] == a[0] && (merged + b)[|merged|] == b[0];
  }

  /** The left half has as many elements as the right one, or one more. */
  method MergeSort(cmp: Comparison, list: seq<nat>) returns (sorted: seq<nat>)
    requires BreaksTies(cmp.tie) && InRange(cmp, list)
    ensures SameStates(list, sorted) && InOrder(cmp, sorted)
    decreases |list|
  {
    if |list| <= 1 {
      return list;
    }
    var slow, fast := 0, 1;
    while fast < |list| && fast + 1 < |list|
      invariant fast == 2 * slow + 1 <= |list|
    {
      slow := slow + 1;
      fast := fast + 2;
    }
    var leftHalf := MergeSort(cmp, list[..slow + 1]);
    var rightHalf := MergeSort(cmp, list[slow + 1..]);
    assert list == list[..slow + 1] + list[slow + 1..];
    sorted := Merge(cmp, leftHalf, rightHalf);
  }

  // ---------------------------------------------------------------- numbering

  /** `order` lists the states by their new numbers; `number` gives each its new number. */
  ghost predicate Numbering(n: nat, order: seq<nat>, number: seq<nat>) {
    && |order| == |number| == n
    && (forall k :: 0 <= k < n ==> order[k] < n && number[order[k]] == k)
    && (forall s :: 0 <= s < n ==> number[s] < n && order[number[s]] == s)
  }

  function Numbers(n: nat): (all: seq<nat>) {
    seq(n, i requires 0 <= i < n => i)
  }

  lemma OnceEach(a: seq<nat>, n: nat)
    requires SameStates(Numbers(n), a)
    ensures |a| == n && Distinct(a) && forall s: nat :: s in a <==> s < n
  {
    var all := Numbers(n);
    assert |multiset(a)| == |a| && |multiset(all)| == |all|;
    forall s: nat ensures s in a <==> s < n {
      assert s in a <==> s in multiset(a);
      assert s < n ==> all[s] in all;
    }
    forall i, j | 0 <= i < j < |a| ensures a[i] != a[j] {
      if a[i] == a[j] {
        CountTwo(a, i, j);
        CountOnce(n, a[i]);
      }
    }
  }

  lemma CountTwo(a: seq<nat>, i: nat, j: nat)
    requires i < j < |a| && a[i] == a[j]
    ensures multiset(a)[a[i]] >= 2
  {
    assert a == a[..j] + a[j..];
    assert a[i] in a[..j] && a[j..][0] == a[j];
  }

  lemma {:induction false} CountOnce(n: nat, s: nat)
    ensures multiset(Numbers(n))[s] == if s < n then 1 else 0
  {
    if n > 0 {
      CountOnce(n - 1, s);
      assert Numbers(n) == Numbers(n - 1) + [n - 1];
    }
  }

  /** The symbols of the states in their new order. */
  function Reordered(symbols: seq<Option<Symbol>>, order: seq<nat>): (r: seq<Option<Symbol>>)
    requires forall k :: 0 <= k < |order| ==> order[k] < |symbols|
  {
    seq(|order|, k requires 0 <= k < |order| => symbols[order[k]])
  }

  /** The start state before all others, terminals before nonterminals, and each of them by number. */
  ghost predicate NotAfter(x: Option<Symbol>, y: Option<Symbol>) {
    match (x, y)
    case (None, _) => true
    case (Some(_), None) => false
    case (Some(T(t)), Some(T(u))) => t <= u
    case (Some(T(_)), Some(N(_))) => true
    case (Some(N(_)), Some(T(_))) => false
    case (Some(N(n)), Some(N(m))) => n <= m
  }

  ghost predicate Ascending(symbols: seq<Option<Symbol>>) {
    forall i, j :: 0 <= i < j < |symbols| ==> NotAfter(symbols[i], symbols[j])
  }

  lemma SymbolsAscend(cmp: Comparison, order: seq<nat>)
    requires InOrder(cmp, order)
    ensures Ascending(Reordered(cmp.symbols, order))
  {
    var symbols := Reordered(cmp.symbols, order);
    forall i, j | 0 <= i < j < |symbols| ensures NotAfter(symbols[i], symbols[j]) {
      AscendTo(cmp, order, i, j);
    }
  }

  lemma {:induction false} AscendTo(cmp: Comparison, order: seq<nat>, i: nat, j: nat)
    requires InOrder(cmp, order) && i < j < |order|
    ensures SymbolDiff(cmp.symbols[order[i]], cmp.symbols[order[j]]) <= 0
  {
    assert StatesDiff(cmp, order[j - 1], order[j]) <= 0;
    if i < j - 1 {
      AscendTo(cmp, order, i, j - 1);
    }
  }

  /** Among the states that one symbol enters, transitions decide the order. */
  ghost predicate OrderedByTransitions(cmp: Comparison, order: seq<nat>) {
    && InRange(cmp, order)
    && forall j: nat, k: nat :: j < k < |order| && cmp.symbols[order[j]] == cmp.symbols[order[k]] ==>
         GoesFirst(cmp, order[j], order[k])
  }

  ghost predicate GoesFirst(cmp: Comparison, left: nat, right: nat) {
    forall i: nat :: DifferFirstAt(cmp, left, right, i) ==> FirstOn(cmp.trans, left, right, SymbolAt(cmp, i))
  }

  lemma {:induction false} DestsAscendTo(cmp: Comparison, order: seq<nat>, j: nat, k: nat)
    requires InOrder(cmp, order) && j < k < |order| && cmp.symbols[order[j]] == cmp.symbols[order[k]]
    ensures DestsDiff(cmp, order[j], order[k], 0) <= 0
    decreases k - j
  {
    var l := k - 1;
    assert StatesDiff(cmp, order[l], order[k]) <= 0;
    AscendTo(cmp, order, j, k);
    if j < l {
      AscendTo(cmp, order, j, l);
      DestsAscendTo(cmp, order, j, l);
      DestsDiffRefl(cmp, order[k], 0);
      DestsDiffTrans(cmp, order[j], order[l], order[k], 0);
    } else {
      DestsDiffRefl(cmp, order[k], 0);
    }
  }

  lemma {:induction false} DestsDiffRefl(cmp: Comparison, s: nat, i: nat)
    ensures DestsDiff(cmp, s, s, i) == 0
    decreases cmp.numTerms + cmp.numNonterms - i
  {
    if i < cmp.numTerms + cmp.numNonterms {
      DestsDiffRefl(cmp, s, i + 1);
    }
  }

  lemma InOrderByTransitions(cmp: Comparison, order: seq<nat>)
    requires InOrder(cmp, order)
    ensures OrderedByTransitions(cmp, order)
  {
    forall j: nat, k: nat | j < k < |order| && cmp.symbols[order[j]] == cmp.symbols[order[k]]
      ensures GoesFirst(cmp, order[j], order[k])
    {
      DestsAscendTo(cmp, order, j, k);
      forall i: nat | DifferFirstAt(cmp, order[j], order[k], i)
        ensures FirstOn(cmp.trans, order[j], order[k], SymbolAt(cmp, i))
      {
        FirstDifferenceDecides(cmp, order[j], order[k], i, 0);
      }
    }
  }

  /** The start state is the only one that is entered by no symbol. */
  ghost predicate OnlyStart(symbols: seq<Option<Symbol>>) {
    |symbols| > START && forall s: nat :: s < |symbols| ==> (symbols[s] == None <==> s == START)
  }

  lemma StartStaysFirst(cmp: Comparison, order: seq<nat>)
    requires OnlyStart(cmp.symbols) && InOrder(cmp, order) && START in order
    ensures order[0] == START
  {
    var k :| 0 <= k < |order| && order[k] == START;
    if k > 0 {
      AscendTo(cmp, order, 0, k);
    }
  }

  method RenumberStates(cmp: Comparison) returns (order: seq<nat>, number: seq<nat>)
    requires BreaksTies(cmp.tie) && OnlyStart(cmp.symbols)
    ensures Numbering(|cmp.symbols|, order, number) && order[0] == START && InOrder(cmp, order)
  {
    order := MergeSort(cmp, Numbers(|cmp.symbols|));
    OnceEach(order, |cmp.symbols|);
    StartStaysFirst(cmp, order);
    number := seq(|cmp.symbols|, i => START);
    for n := 0 to |order|
      invariant |number| == |order| && number[START] == 0 && forall k :: 0 <= k < n ==> number[order[k]] == k
    {
      if n > 0 {
        number := number[order[n] := n];
      }
    }
    forall s | 0 <= s < |number| ensures number[s] < |number| && order[number[s]] == s {
      assert s in order;
    }
  }

  // ---------------------------------------------------------------- the same graph under new numbers

  ghost predicate Renumbered(lr: LrGraph, lr': LrGraph, order: seq<nat>, number: seq<nat>) {
    && Numbering(|lr.sets|, order, number) && |lr'.sets| == |lr.sets| && |lr.sets| > START && order[START] == START
    && (forall k: nat :: k < |lr'.sets| ==> lr'.sets[k] == lr.sets[order[k]])
    && (forall k: nat, x: Symbol :: MovesAlike(lr, lr', order, number, k, x))
  }

  ghost predicate MovesAlike(lr: LrGraph, lr': LrGraph, order: seq<nat>, number: seq<nat>, k: nat, x: Symbol)
    requires Numbering(|lr.sets|, order, number)
  {
    && ((k, x) in lr'.trans <==> k < |lr.sets| && (order[k], x) in lr.trans)
    && ((k, x) in lr'.trans ==>
          lr.trans[(order[k], x)] < |lr.sets| && lr'.trans[(k, x)] == number[lr.trans[(order[k], x)]])
  }

  function Renumber(lr: LrGraph, order: seq<nat>, number: seq<nat>): (lr': LrGraph)
    requires Numbering(|lr.sets|, order, number) && |lr.sets| > START && order[START] == START
    requires forall e :: e in lr.trans ==> e.0 < |lr.sets| && lr.trans[e] < |lr.sets|
    ensures Renumbered(lr, lr', order, number)
  {
    var trans := map e | e in lr.trans :: (number[e.0], e.1) := number[lr.trans[e]];
    var lr' := LrGraph(seq(|order|, k requires 0 <= k < |order| => lr.sets[order[k]]), trans);
    assert forall k: nat, x: Symbol :: MovesAlike(lr, lr', order, number, k, x) by {
      forall k: nat, x: Symbol ensures MovesAlike(lr, lr', order, number, k, x) {
        if k < |order| && (order[k], x) in lr.trans {
          var e := (order[k], x);
          assert (number[e.0], e.1) in trans;
        }
        if (k, x) in trans {
          var e :| e in lr.trans && (number[e.0], e.1) == (k, x);
          assert e == (order[k], x);
        }
      }
    }
    lr'
  }

  lemma SetsRenumbered(g: Grammar, info: Info, lr: LrGraph, lr': LrGraph, order: seq<nat>, number: seq<nat>)
    requires Renumbered(lr, lr', order, number) && SetsOK(g, info, lr.sets) && DistinctCores(lr.sets)
    ensures SetsOK(g, info, lr'.sets) && DistinctCores(lr'.sets)
  {
    forall k: nat | k < |lr'.sets| ensures ItemSetOK(g, info, lr'.sets[k], k == START) {
      assert ItemSetOK(g, info, lr.sets[order[k]], order[k] == START);
    }
    forall k: nat, l: nat | k < l < |lr'.sets| ensures lr'.sets[k].kernel.Keys != lr'.sets[l].kernel.Keys {
      assert order[k] < order[l] || order[l] < order[k];
    }
  }

  lemma TransRenumbered(g: Grammar, lr: LrGraph, lr': LrGraph, order: seq<nat>, number: seq<nat>)
    requires Renumbered(lr, lr', order, number) && TransitionsOK(g, lr)
    ensures TransitionsOK(g, lr')
  {
    forall k: nat, x: Symbol ensures TransOK(g, lr', k, x) {
      assert MovesAlike(lr, lr', order, number, k, x);
      if k < |order| {
        assert TransOK(g, lr, order[k], x);
      }
    }
  }

  lemma EnteredRenumbered(lr: LrGraph, lr': LrGraph, order: seq<nat>, number: seq<nat>)
    requires Renumbered(lr, lr', order, number) && AllEntered(lr) && forall e :: e in lr.trans ==> e.0 < |lr.sets|
    ensures AllEntered(lr')
  {
    forall k: nat | START < k < |lr'.sets| ensures EnteredIn(lr', k) {
      assert EnteredIn(lr, order[k]);
      var from: nat, x: Symbol :| (from, x) in lr.trans && lr.trans[(from, x)] == order[k];
      assert MovesAlike(lr, lr', order, number, number[from], x);
      assert (number[from], x) in lr'.trans && lr'.trans[(number[from], x)] == k;
    }
  }

  /** A closed family over the new numbers is one over the old numbers. */
  lemma FamilyRenumbered(g: Grammar, info: Info, lr: LrGraph, lr': LrGraph, order: seq<nat>, number: seq<nat>,
                         fam': seq<Items>) returns (fam: seq<Items>)
    requires Renumbered(lr, lr', order, number) && TransitionsOK(g, lr)
    requires FamilyClosed(g, info, lr'.trans, fam') && |fam'| >= |lr.sets|
    ensures |fam| == |lr.sets| && FamilyClosed(g, info, lr.trans, fam)
    ensures forall s: nat :: s < |fam| ==> fam[s] == fam'[number[s]]
  {
    fam := seq(|lr.sets|, s requires 0 <= s < |lr.sets| => fam'[number[s]]);
    forall s: nat, x: Symbol ensures FamilyMoves(g, lr.trans, fam, s, x) {
      assert TransOK(g, lr, s, x);
      if s < |lr.sets| {
        assert MovesAlike(lr, lr', order, number, number[s], x);
        assert FamilyMoves(g, lr'.trans, fam', number[s], x);
      }
    }
  }

  lemma LeastRenumbered(g: Grammar, info: Info, lr: LrGraph, lr': LrGraph, order: seq<nat>, number: seq<nat>)
    requires Renumbered(lr, lr', order, number) && TransitionsOK(g, lr) && AllEntered(lr') && Least(g, info, lr)
    ensures Least(g, info, lr')
  {
    forall fam' | FamilyClosed(g, info, lr'.trans, fam') ensures InFamily(lr'.sets, fam') {
      FamilyReaches(g, info, lr', fam', |lr'.sets|);
      var fam := FamilyRenumbered(g, info, lr, lr', order, number, fam');
      assert InFamily(lr.sets, fam);
      forall k: nat | k < |lr'.sets| ensures Below(All(lr'.sets[k]), fam'[k]) {
        assert Below(All(lr.sets[order[k]]), fam[order[k]]);
      }
    }
  }

  /** A closed family has a member for every state, since every state is entered. */
  lemma FamilyReaches(g: Grammar, info: Info, lr: LrGraph, fam: seq<Items>, n: nat)
    requires FamilyClosed(g, info, lr.trans, fam) && AllEntered(lr) && n <= |lr.sets|
    ensures n <= |fam|
  {
    if n > 1 {
      assert EnteredIn(lr, n - 1);
      var from: nat, x: Symbol :| (from, x) in lr.trans && lr.trans[(from, x)] == n - 1;
      assert FamilyMoves(g, lr.trans, fam, from, x);
    }
  }

  lemma DoneRenumbered(g: Grammar, lr: LrGraph, lr': LrGraph, order: seq<nat>, number: seq<nat>, k: nat)
    requires Renumbered(lr, lr', order, number) && k < |lr.sets| && StateDone(g, lr, order[k])
    ensures StateDone(g, lr', k)
  {
    forall x: Symbol ensures SymDone(g, lr', k, x) {
      assert MovesAlike(lr, lr', order, number, k, x) && SymDone(g, lr, order[k], x);
    }
  }

  /** Whatever the states are numbered, they are the same least family of closed item sets. */
  lemma RenumberedIsFinished(g: Grammar, info: Info, lr: LrGraph, lr': LrGraph, order: seq<nat>, number: seq<nat>)
    requires Finished(g, info, lr) && Renumbered(lr, lr', order, number)
    ensures Finished(g, info, lr')
  {
    SetsRenumbered(g, info, lr, lr', order, number);
    TransRenumbered(g, lr, lr', order, number);
    forall e | e in lr.trans ensures e.0 < |lr.sets| {
      assert TransOK(g, lr, e.0, e.1);
    }
    EnteredRenumbered(lr, lr', order, number);
    LeastRenumbered(g, info, lr, lr', order, number);
    forall k: nat | k < |lr'.sets| ensures UpToDate(g, info, lr'.sets[k]) && StateDone(g, lr', k) {
      DoneRenumbered(g, lr, lr', order, number, k);
    }
  }

  // ---------------------------------------------------------------- runs

  lemma OnlyStartHasNone(lr: LrGraph, symbols: seq<Option<Symbol>>)
    requires SymbolsFit(lr, symbols) && AllEntered(lr) && |lr.sets| > START
    ensures OnlyStart(symbols)
  {
    forall s: nat | s < |symbols| ensures symbols[s] == None <==> s == START {
      assert EnteredBy(lr, s, symbols[s]);
      assert s > START ==> EnteredIn(lr, s);
    }
  }

  lemma SymbolsAreUnique(lr: LrGraph, a: seq<Option<Symbol>>, b: seq<Option<Symbol>>)
    requires SymbolsFit(lr, a) && SymbolsFit(lr, b) && AllEntered(lr)
    ensures a == b
  {
    forall s: nat | s < |a| ensures a[s] == b[s] {
      assert EnteredBy(lr, s, a[s]) && EnteredBy(lr, s, b[s]);
      assert s > START ==> EnteredIn(lr, s);
    }
  }

  lemma SymbolsRenumbered(lr: LrGraph, lr': LrGraph, order: seq<nat>, number: seq<nat>, symbols: seq<Option<Symbol>>)
    requires Renumbered(lr, lr', order, number) && SymbolsFit(lr, symbols)
    ensures SymbolsFit(lr', Reordered(symbols, order))
  {
    forall k: nat | k < |order| ensures EnteredBy(lr', k, Reordered(symbols, order)[k]) {
      assert EnteredBy(lr, order[k], symbols[order[k]]);
      forall j: nat, x: Symbol | (j, x) in lr'.trans && lr'.trans[(j, x)] == k ensures symbols[order[k]] == Some(x) {
        assert MovesAlike(lr, lr', order, number, j, x);
      }
    }
  }

  method SymbolsOfSets(g: Grammar, lr: LrGraph, ghost info: Info) returns (symbols: seq<Option<Symbol>>)
    requires Built(g, info, lr)
    ensures SymbolsFit(lr, symbols)
  {
    symbols := [];
    for s := 0 to |lr.sets|
      invariant |symbols| == s && forall u: nat :: u < s ==> EnteredBy(lr, u, symbols[u])
    {
      forall it | it in lr.sets[s].kernel ensures ItemIn(g, it) {
        assert KernelItemOK(g, lr.sets[s], s == START, it);
      }
      var x := StateSymbol(g, lr.sets[s].kernel);
      SymbolFound(g, info, lr, s, x);
      symbols := symbols + [x];
    }
  }

  /** The states under their new numbers, in the order of the symbols that they are entered by. */
  method NumberStates(g: Grammar, lr: LrGraph, tie: (nat, nat) -> int, ghost info: Info)
      returns (lr': LrGraph, ghost order: seq<nat>, ghost number: seq<nat>, ghost cmp: Comparison)
    requires Finished(g, info, lr) && BreaksTies(tie)
    ensures Finished(g, info, lr') && Renumbered(lr, lr', order, number)
    ensures cmp == Comparison(cmp.symbols, lr.trans, g.numTerms, g.numNonterms, tie) && SymbolsFit(lr, cmp.symbols)
    ensures OrderedByTransitions(cmp, order)
    ensures forall symbols :: SymbolsFit(lr', symbols) ==> OnlyStart(symbols) && Ascending(symbols)
  {
    var symbols := SymbolsOfSets(g, lr, info);
    OnlyStartHasNone(lr, symbols);
    var criteria := Comparison(symbols, lr.trans, g.numTerms, g.numNonterms, tie);
    var newOrder, newNumber := RenumberStates(criteria);
    cmp, order, number := criteria, newOrder, newNumber;
    InOrderByTransitions(cmp, order);
    forall e | e in lr.trans ensures e.0 < |lr.sets| && lr.trans[e] < |lr.sets| {
      assert TransOK(g, lr, e.0, e.1);
    }
    lr' := Renumber(lr, newOrder, newNumber);
    RenumberedIsFinished(g, info, lr, lr', order, number);
    SymbolsRenumbered(lr, lr', order, number, symbols);
    SymbolsAscend(cmp, order);
    forall s | SymbolsFit(lr', s) ensures OnlyStart(s) && Ascending(s) {
      SymbolsAreUnique(lr', s, Reordered(symbols, order));
      OnlyStartHasNone(lr', s);
    }
  }

  /** The first state that each symbol enters; zero for those that enter none. */
  datatype Firsts = Firsts(firstWithTerminal: seq<nat>, firstWithNonterminal: seq<nat>)

  predicate HasFirst(f: Firsts, x: Symbol) {
    if x.T? then x.t < |f.firstWithTerminal| else x.n < |f.firstWithNonterminal|
  }

  function FirstState(f: Firsts, x: Symbol): nat
    requires HasFirst(f, x)
  {
    if x.T? then f.firstWithTerminal[x.t] else f.firstWithNonterminal[x.n]
  }

  /** From the first state that its symbol enters up to `s`, all states are entered by that symbol. */
  ghost predicate InRun(symbols: seq<Option<Symbol>>, f: Firsts, s: nat)
    requires s < |symbols|
  {
    symbols[s].Some? ==>
      && HasFirst(f, symbols[s].value) && FirstState(f, symbols[s].value) <= s
      && forall r: nat :: FirstState(f, symbols[s].value) <= r <= s ==> symbols[r] == symbols[s]
  }

  ghost predicate Runs(symbols: seq<Option<Symbol>>, f: Firsts, n: nat)
    requires n <= |symbols|
  {
    forall s: nat :: s < n ==> InRun(symbols, f, s)
  }

  /** What the loop below knows of the state before. */
  ghost predicate AtState(symbols: seq<Option<Symbol>>, s: nat, doingTerms: bool, prevSymCode: int)
    requires s <= |symbols|
  {
    if s > 0 && symbols[s - 1].Some? then
      symbols[s - 1].value.T? == doingTerms && SymbolIndex(symbols[s - 1].value) == prevSymCode
    else doingTerms && prevSymCode == -1
  }

  /** Where a new run begins, its symbol comes after the last one. */
  lemma NewRun(symbols: seq<Option<Symbol>>, s: nat, doingTerms: bool, prevSymCode: int)
    requires Ascending(symbols) && s < |symbols| && AtState(symbols, s, doingTerms, prevSymCode) && symbols[s].Some?
    requires symbols[s].value.T? != doingTerms || SymbolIndex(symbols[s].value) != prevSymCode
    ensures symbols[s].value.T? ==> doingTerms
    ensures symbols[s].value.T? == doingTerms ==> prevSymCode < SymbolIndex(symbols[s].value)
    ensures forall r: nat :: r < s ==> symbols[r] != symbols[s]
  {
    forall r: nat | r < s ensures symbols[r] != symbols[s] {
      assert NotAfter(symbols[r], symbols[s - 1]) || r == s - 1;
    }
  }

  lemma RunStarts(symbols: seq<Option<Symbol>>, f: Firsts, f': Firsts, s: nat)
    requires s < |symbols| && Runs(symbols, f, s) && symbols[s].Some? && HasFirst(f', symbols[s].value)
    requires forall r: nat :: r < s ==> symbols[r] != symbols[s]
    requires FirstState(f', symbols[s].value) == s
    requires forall x: Symbol :: HasFirst(f, x) ==>
               HasFirst(f', x) && (Some(x) != symbols[s] ==> FirstState(f', x) == FirstState(f, x))
    ensures Runs(symbols, f', s + 1)
  {
    forall r: nat | r < s + 1 ensures InRun(symbols, f', r) {
      assert r < s ==> InRun(symbols, f, r);
    }
  }

  lemma RunGoesOn(symbols: seq<Option<Symbol>>, f: Firsts, s: nat)
    requires 0 < s < |symbols| && Runs(symbols, f, s) && symbols[s] == symbols[s - 1]
    ensures Runs(symbols, f, s + 1)
  {
    assert InRun(symbols, f, s - 1);
  }

  /** One pass over the states, which are in order: a symbol that differs from the last one starts a run. */
  method FirstStates(symbols: seq<Option<Symbol>>, numTerms: nat, numNonterms: nat) returns (f: Firsts)
    requires Ascending(symbols)
    requires forall s: nat :: s < |symbols| && symbols[s].Some? ==>
               if symbols[s].value.T? then symbols[s].value.t < numTerms else symbols[s].value.n < numNonterms
    ensures |f.firstWithTerminal| == numTerms && |f.firstWithNonterminal| == numNonterms
    ensures Runs(symbols, f, |symbols|)
  {
    f := Firsts(seq(numTerms, _ => 0), seq(numNonterms, _ => 0));
    var doingTerms, prevSymCode := true, -1;
    for s := 0 to |symbols|
      invariant |f.firstWithTerminal| == numTerms && |f.firstWithNonterminal| == numNonterms
      invariant Runs(symbols, f, s) && AtState(symbols, s, doingTerms, prevSymCode)
    {
      var sym := symbols[s];
      if sym.None? {
        NoneBefore(symbols, s);
        continue;
      }
      var symCode := SymbolIndex(sym.value);
      if sym.value.T? == doingTerms && symCode == prevSymCode {
        RunGoesOn(symbols, f, s);
        continue;
      }
      NewRun(symbols, s, doingTerms, prevSymCode);
      if sym.value.N? && doingTerms {
        doingTerms := false;
      } else {
        assert sym.value.T? == doingTerms && prevSymCode < symCode;
      }
      ghost var was := f;
      if doingTerms {
        f := f.(firstWithTerminal := f.firstWithTerminal[symCode := s]);
      } else {
        f := f.(firstWithNonterminal := f.firstWithNonterminal[symCode := s]);
      }
      RunStarts(symbols, was, f, s);
      prevSymCode := symCode;
    }
  }

  lemma NoneBefore(symbols: seq<Option<Symbol>>, s: nat)
    requires Ascending(symbols) && s < |symbols| && symbols[s] == None
    ensures s > 0 ==> symbols[s - 1] == None
  {
  }

  /** The states that `x` enters. */
  ghost function EnteredStates(symbols: seq<Option<Symbol>>, x: Symbol): set<nat> {
    set s: nat | s < |symbols| && symbols[s] == Some(x)
  }

  /** A state is less far from the first of its run than there are states in the run. */
  lemma DeltaInRun(symbols: seq<Option<Symbol>>, f: Firsts, s: nat)
    requires s < |symbols| && symbols[s].Some? && InRun(symbols, f, s)
    ensures 0 <= s - FirstState(f, symbols[s].value) < |EnteredStates(symbols, symbols[s].value)|
  {
    var first := FirstState(f, symbols[s].value);
    NatsBelowSize(first);
    NatsBelowSize(s + 1);
    var run := NatsBelow(s + 1) - NatsBelow(first);
    assert NatsBelow(s + 1) == NatsBelow(first) + run;
    SubsetSize(run, EnteredStates(symbols, symbols[s].value));
  }
}
