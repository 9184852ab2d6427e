/** Rewriting a string of symbols to terminals by backtracking, without repeating a production on any path. */
module SampleInput {
  import opened Grammars
  import opened Derivability
  import opened FiniteSets
  import opened Language

  ghost function AllProds(g: Grammar): set<nat> {
    NatsBelow(|g.prods|)
  }

  /** Production `p` may be tried for nonterminal `a`: not directly recursive, not in use. */
  predicate Candidate(g: Grammar, used: set<nat>, a: nat, p: nat) {
    p < |g.prods| && g.prods[p].lhs == a && N(a) !in g.prods[p].rhs && p !in used
  }

  /** Some derivation of `x` uses no production of `used`, and none twice on a path. */
  ghost predicate CanRewrite(g: Grammar, used: set<nat>, x: Symbol)
    decreases AllProds(g) - used, 1
  {
    x.N? ==> exists p: nat :: RewritesWith(g, used, x.n, p)
  }

  ghost predicate RewritesWith(g: Grammar, used: set<nat>, a: nat, p: nat)
    decreases AllProds(g) - used, 0
  {
    Candidate(g, used, a, p)
    && (NatsBelowSize(|g.prods|);
        assert p in AllProds(g) - used;
        forall i :: 0 <= i < |g.prods[p].rhs| ==> CanRewrite(g, used + {p}, g.prods[p].rhs[i]))
  }

  ghost predicate AllCanRewrite(g: Grammar, used: set<nat>, xs: seq<Symbol>) {
    forall i :: 0 <= i < |xs| ==> CanRewrite(g, used, xs[i])
  }

  // ---------------------------------------------------------------- productive symbols can be rewritten

  /** `x` derives a terminal string by a tree of height at most `h`. */
  ghost predicate Productive(g: Grammar, x: Symbol, h: nat)
    decreases h, 1
  {
    x.N? ==> h > 0 && exists p: nat :: ProductiveBy(g, x.n, h, p)
  }

  ghost predicate ProductiveBy(g: Grammar, a: nat, h: nat, p: nat)
    requires h > 0
    decreases h, 0
  {
    p < |g.prods| && g.prods[p].lhs == a && forall i :: 0 <= i < |g.prods[p].rhs| ==>
      Productive(g, g.prods[p].rhs[i], h - 1)
  }

  lemma {:induction false} ProductiveHigher(g: Grammar, x: Symbol, h: nat, h': nat)
    requires Productive(g, x, h) && h <= h'
    ensures Productive(g, x, h')
    decreases h
  {
    if x.N? {
      var p: nat :| ProductiveBy(g, x.n, h, p);
      forall i | 0 <= i < |g.prods[p].rhs| ensures Productive(g, g.prods[p].rhs[i], h' - 1) {
        ProductiveHigher(g, g.prods[p].rhs[i], h - 1, h' - 1);
      }
      assert ProductiveBy(g, x.n, h', p);
    }
  }

  /** Trees bound heights. */
  lemma {:induction false} TreeProductive(g: Grammar, tree: Tree, x: Symbol) returns (h: nat)
    requires Plain(tree) && Produces(g, tree, x)
    ensures Productive(g, x, h)
    decreases tree
  {
    match tree
    case Leaf(_) => h := 0;
    case Node(p, kids) =>
      h := ForestProductive(g, kids, g.prods[p].rhs);
      h := h + 1;
      assert ProductiveBy(g, x.n, h, p);
  }

  lemma {:induction false} ForestProductive(g: Grammar, f: Forest, xs: seq<Symbol>) returns (h: nat)
    requires PlainAll(f) && ProducesAll(g, f, xs)
    ensures forall i :: 0 <= i < |xs| ==> Productive(g, xs[i], h)
    decreases f
  {
    match f
    case Nil => h := 0;
    case Cons(head, tail) =>
      var h1 := TreeProductive(g, head, xs[0]);
      var h2 := ForestProductive(g, tail, xs[1..]);
      h := if h1 > h2 then h1 else h2;
      forall i | 0 <= i < |xs| ensures Productive(g, xs[i], h) {
        ProductiveHigher(g, xs[i], if i == 0 then h1 else h2, h);
      }
  }

  lemma {:induction false} LeastHeight(g: Grammar, x: Symbol, h: nat) returns (r: nat)
    requires Productive(g, x, h) && x.N?
    ensures 0 < r <= h && Productive(g, x, r) && !Productive(g, x, r - 1)
    decreases h
  {
    if Productive(g, x, h - 1) {
      r := LeastHeight(g, x, h - 1);
    } else {
      r := h;
    }
  }

  /** Least trees never repeat a nonterminal on a path, so the search cannot miss them. */
  lemma {:induction false} ProductiveCanRewrite(g: Grammar, used: set<nat>, x: Symbol, h: nat)
    requires Productive(g, x, h) && forall q :: q in used && q < |g.prods| ==> !Productive(g, N(g.prods[q].lhs), h)
    ensures CanRewrite(g, used, x)
    decreases h
  {
    if x.N? {
      var r := LeastHeight(g, x, h);
      var p: nat :| ProductiveBy(g, x.n, r, p);
      var rhs := g.prods[p].rhs;
      forall i | 0 <= i < |rhs| ensures rhs[i] != x {
        assert Productive(g, rhs[i], r - 1);
      }
      assert Candidate(g, used, x.n, p);
      forall q | q in used + {p} && q < |g.prods| ensures !Productive(g, N(g.prods[q].lhs), r - 1) {
        if Productive(g, N(g.prods[q].lhs), r - 1) {
          ProductiveHigher(g, N(g.prods[q].lhs), r - 1, h);
        }
      }
      forall i | 0 <= i < |rhs| ensures CanRewrite(g, used + {p}, rhs[i]) {
        ProductiveCanRewrite(g, used + {p}, rhs[i], r - 1);
      }
      assert RewritesWith(g, used, x.n, p);
    }
  }

  /** The symbols that mean something: the empty string is skipped. */
  function Visible(xs: seq<Symbol>): seq<Symbol> {
    if xs == [] then [] else (if xs[0] == N(EMPTY) then [] else [xs[0]]) + Visible(xs[1..])
  }

  /** Whatever derives a terminal string can be rewritten. */
  lemma DerivableCanRewrite(g: Grammar, xs: seq<Symbol>, w: seq<nat>)
    requires GeneratesAll(g, xs, w)
    ensures AllCanRewrite(g, {}, xs)
  {
    var f :| PlainAll(f) && ProducesAll(g, f, xs) && Yields(f) == w;
    var h := ForestProductive(g, f, xs);
    forall i | 0 <= i < |xs| ensures CanRewrite(g, {}, xs[i]) {
      ProductiveCanRewrite(g, {}, xs[i], h);
    }
  }

  lemma RewritingDerives(g: Grammar, p: nat, w: seq<nat>)
    requires p < |g.prods| && GeneratesAll(g, g.prods[p].rhs, w)
    ensures Generates(g, N(g.prods[p].lhs), w)
  {
    var f :| PlainAll(f) && ProducesAll(g, f, g.prods[p].rhs) && Yields(f) == w;
    assert Plain(Node(p, f)) && Produces(g, Node(p, f), N(g.prods[p].lhs)) && Yield(Node(p, f)) == w;
  }

  lemma NothingDerived(g: Grammar)
    ensures GeneratesAll(g, [], [])
  {
    assert PlainAll(Nil) && ProducesAll(g, Nil, []) && Yields(Nil) == [];
  }

  lemma TerminalDerives(g: Grammar, t: nat)
    ensures Generates(g, T(t), [t])
  {
    assert Plain(Leaf(t)) && Produces(g, Leaf(t), T(t)) && Yield(Leaf(t)) == [t];
  }

  lemma OneMoreDerived(g: Grammar, xs: seq<Symbol>, w: seq<nat>, x: Symbol, v: seq<nat>)
    requires GeneratesAll(g, xs, w) && Generates(g, x, v)
    ensures GeneratesAll(g, xs + [x], w + v)
  {
    var f :| PlainAll(f) && ProducesAll(g, f, xs) && Yields(f) == w;
    var tree :| Plain(tree) && Produces(g, tree, x) && Yield(tree) == v;
    AppendProduces(g, f, xs, tree, x);
  }

  lemma VisibleStep(xs: seq<Symbol>, i: nat)
    requires i < |xs|
    ensures Visible(xs[..i + 1]) == Visible(xs[..i]) + if xs[i] == N(EMPTY) then [] else [xs[i]]
    decreases i
  {
    if i == 0 {
      assert xs[..1][1..] == [];
    } else {
      assert xs[..i + 1][1..] == xs[1..][..i] && xs[..i][1..] == xs[1..][..i - 1];
      VisibleStep(xs[1..], i - 1);
    }
  }

  lemma {:induction false} VisibleHas(xs: seq<Symbol>, i: nat) returns (j: nat)
    requires i < |xs| && xs[i] != N(EMPTY)
    ensures j < |Visible(xs)| && Visible(xs)[j] == xs[i]
  {
    if i == 0 {
      j := 0;
    } else {
      j := VisibleHas(xs[1..], i - 1);
      j := if xs[0] == N(EMPTY) then j else j + 1;
    }
  }

  lemma {:induction false} AllVisible(xs: seq<Symbol>)
    requires forall i :: 0 <= i < |xs| ==> xs[i] != N(EMPTY)
    ensures Visible(xs) == xs
  {
    if xs != [] {
      AllVisible(xs[1..]);
    }
  }

  // ---------------------------------------------------------------- the search

  /** Prefer a right-hand side without symbols that are being expanded, then one with fewer
      nonterminals, then the shorter one. */
  function RhsSeen(g: Grammar, stack: seq<nat>, p: nat): bool
    requires p < |g.prods|
  {
    exists k :: 0 <= k < |stack| && stack[k] < |g.prods| && N(g.prods[stack[k]].lhs) in g.prods[p].rhs
  }

  function NumNonterminals(rhs: seq<Symbol>): nat {
    if rhs == [] then 0 else (if rhs[0].N? then 1 else 0) + NumNonterminals(rhs[1..])
  }

  predicate GoesBeforeIn(g: Grammar, stack: seq<nat>, p1: nat, p2: nat)
    requires p1 < |g.prods| && p2 < |g.prods|
  {
    if RhsSeen(g, stack, p1) != RhsSeen(g, stack, p2) then RhsSeen(g, stack, p2)
    else if NumNonterminals(g.prods[p1].rhs) != NumNonterminals(g.prods[p2].rhs) then
      NumNonterminals(g.prods[p1].rhs) < NumNonterminals(g.prods[p2].rhs)
    else |g.prods[p1].rhs| < |g.prods[p2].rhs|
  }

  /** Distinct productions, none before one that should be tried first. */
  ghost predicate InOrderOfPreference(g: Grammar, stack: seq<nat>, ps: seq<nat>) {
    && (forall i :: 0 <= i < |ps| ==> ps[i] < |g.prods|)
    && (forall i, j :: 0 <= i < j < |ps| ==> ps[i] != ps[j] && !GoesBeforeIn(g, stack, ps[j], ps[i]))
  }

  lemma NotBefore(g: Grammar, stack: seq<nat>, p1: nat, p2: nat, p3: nat)
    requires p1 < |g.prods| && p2 < |g.prods| && p3 < |g.prods|
    requires !GoesBeforeIn(g, stack, p1, p2) && !GoesBeforeIn(g, stack, p2, p3)
    ensures !GoesBeforeIn(g, stack, p1, p3)
  {
  }

  lemma InsertedInOrder(g: Grammar, stack: seq<nat>, ps: seq<nat>, i: nat, p: nat)
    requires InOrderOfPreference(g, stack, ps) && i <= |ps| && p < |g.prods| && p !in ps
    requires forall j :: 0 <= j < i ==> GoesBeforeIn(g, stack, ps[j], p)
    requires i < |ps| ==> !GoesBeforeIn(g, stack, ps[i], p)
    ensures InOrderOfPreference(g, stack, ps[..i] + [p] + ps[i..])
  {
    forall j | i <= j < |ps| ensures !GoesBeforeIn(g, stack, ps[j], p) {
      if i < j {
        NotBefore(g, stack, ps[j], ps[i], p);
      }
    }
  }

  // ---------------------------------------------------------------- what is preferred

  /** A left side of the stack is on the right-hand side of `p`. */
  ghost predicate ExpandsAgain(g: Grammar, stack: seq<nat>, p: nat) {
    p < |g.prods| && exists q: nat :: q in stack && q < |g.prods| && N(g.prods[q].lhs) in g.prods[p].rhs
  }

  ghost function NontermsAt(rhs: seq<Symbol>): set<nat> {
    set i: nat | i < |rhs| && rhs[i].N?
  }

  lemma {:induction false} NontermsCounted(rhs: seq<Symbol>)
    ensures |NontermsAt(rhs)| == NumNonterminals(rhs)
    decreases |rhs|
  {
    if rhs == [] {
      assert NontermsAt(rhs) == {};
    } else {
      var k := |rhs| - 1;
      var before := rhs[..k];
      NontermsCounted(before);
      NumWithLast(before, rhs[k]);
      assert rhs == before + [rhs[k]];
      assert NontermsAt(rhs) == NontermsAt(before) + if rhs[k].N? then {k} else {};
    }
  }

  lemma {:induction false} NumWithLast(rhs: seq<Symbol>, x: Symbol)
    ensures NumNonterminals(rhs + [x]) == NumNonterminals(rhs) + if x.N? then 1 else 0
  {
    if rhs == [] {
      assert NumNonterminals([x]) == (if x.N? then 1 else 0) + NumNonterminals([]);
    } else {
      assert (rhs + [x])[1..] == rhs[1..] + [x];
      NumWithLast(rhs[1..], x);
    }
  }

  /** What expands nothing again goes first, then what has fewer nonterminals, then what is shorter. */
  ghost predicate Preferable(g: Grammar, stack: seq<nat>, p: nat, q: nat)
    requires p < |g.prods| && q < |g.prods|
  {
    && (ExpandsAgain(g, stack, p) ==> ExpandsAgain(g, stack, q))
    && ((ExpandsAgain(g, stack, p) <==> ExpandsAgain(g, stack, q)) ==>
          && |NontermsAt(g.prods[p].rhs)| <= |NontermsAt(g.prods[q].rhs)|
          && (|NontermsAt(g.prods[p].rhs)| == |NontermsAt(g.prods[q].rhs)| ==>
                |g.prods[p].rhs| <= |g.prods[q].rhs|))
  }

  ghost predicate BestFirst(g: Grammar, stack: seq<nat>, ps: seq<nat>) {
    forall i, j :: 0 <= i < j < |ps| ==> ps[i] < |g.prods| && ps[j] < |g.prods| && Preferable(g, stack, ps[i], ps[j])
  }

  lemma OrderIsPreference(g: Grammar, stack: seq<nat>, ps: seq<nat>)
    requires InOrderOfPreference(g, stack, ps)
    ensures BestFirst(g, stack, ps)
  {
    forall i, j | 0 <= i < j < |ps| ensures Preferable(g, stack, ps[i], ps[j]) {
      SeenMeans(g, stack, ps[i]);
      SeenMeans(g, stack, ps[j]);
      NontermsCounted(g.prods[ps[i]].rhs);
      NontermsCounted(g.prods[ps[j]].rhs);
      assert !GoesBeforeIn(g, stack, ps[j], ps[i]);
    }
  }

  lemma SeenMeans(g: Grammar, stack: seq<nat>, p: nat)
    requires p < |g.prods|
    ensures RhsSeen(g, stack, p) <==> ExpandsAgain(g, stack, p)
  {
    if RhsSeen(g, stack, p) {
      var k :| 0 <= k < |stack| && stack[k] < |g.prods| && N(g.prods[stack[k]].lhs) in g.prods[p].rhs;
      assert stack[k] in stack;
    }
  }

  ghost predicate OnlyTerminals(xs: seq<Symbol>) {
    forall i :: 0 <= i < |xs| ==> xs[i].T?
  }

  ghost function Terminals(xs: seq<Symbol>): (w: seq<nat>)
    ensures |w| == |xs|
  {
    seq(|xs|, i requires 0 <= i < |xs| => if xs[i].T? then xs[i].t else 0)
  }

  /** A production for `a` of terminals only that may be tried. */
  ghost predicate PlainCandidate(g: Grammar, used: set<nat>, a: nat, p: nat) {
    p < |g.prods| && g.prods[p].lhs == a && p !in used && OnlyTerminals(g.prods[p].rhs)
  }

  /** The terminals of a shortest such production. */
  ghost predicate Shortest(g: Grammar, used: set<nat>, a: nat, w: seq<nat>) {
    && (exists p: nat :: PlainCandidate(g, used, a, p) && w == Terminals(g.prods[p].rhs))
    && forall p: nat :: PlainCandidate(g, used, a, p) ==> |w| <= |g.prods[p].rhs|
  }

  /** `w` is what the rewriting appends for `xs`. */
  ghost predicate Rewritten(g: Grammar, used: set<nat>, xs: seq<Symbol>, w: seq<nat>) {
    && AllCanRewrite(g, used, Visible(xs)) && GeneratesAll(g, Visible(xs), w)
    && (OnlyTerminals(xs) ==> w == Terminals(xs))
    && forall a: nat :: xs == [N(a)] && a != EMPTY && HasPlain(g, used, a) ==> Shortest(g, used, a, w)
  }

  lemma OneMoreRewritten(g: Grammar, used: set<nat>, xs: seq<Symbol>, w: seq<nat>, x: Symbol, v: seq<nat>)
    requires Rewritten(g, used, xs, w)
    requires if x == N(EMPTY) then v == [] else CanRewrite(g, used, x) && Generates(g, x, v)
    requires x.T? ==> v == [x.t]
    requires x.N? && x.n != EMPTY && HasPlain(g, used, x.n) ==> Shortest(g, used, x.n, v)
    ensures Rewritten(g, used, xs + [x], w + v)
  {
    var more := xs + [x];
    VisibleStep(more, |xs|);
    assert more[..|xs|] == xs && more[..|more|] == more;
    if x != N(EMPTY) {
      OneMoreDerived(g, Visible(xs), w, x, v);
    } else {
      assert w + v == w && Visible(more) == Visible(xs);
    }
    if OnlyTerminals(more) {
      assert x == more[|xs|];
      assert forall i :: 0 <= i < |xs| ==> more[i] == xs[i];
    }
    assert xs == [] ==> w + v == v;
  }

  ghost predicate HasPlain(g: Grammar, used: set<nat>, a: nat) {
    exists p: nat :: PlainCandidate(g, used, a, p)
  }

  lemma PlainIsCandidate(g: Grammar, used: set<nat>, a: nat, p: nat)
    requires PlainCandidate(g, used, a, p)
    ensures Candidate(g, used, a, p) && NontermsAt(g.prods[p].rhs) == {}
    ensures forall stack: seq<nat> :: !ExpandsAgain(g, stack, p)
  {
    forall x: Symbol | x in g.prods[p].rhs ensures x.T? {
      var i :| 0 <= i < |g.prods[p].rhs| && g.prods[p].rhs[i] == x;
    }
  }

  /** So the first candidate is one of these, if there is any. */
  lemma PlainFirst(g: Grammar, stack: seq<nat>, used: set<nat>, a: nat, ps: seq<nat>)
    requires BestFirst(g, stack, ps) && HasPlain(g, used, a)
    requires forall p: nat :: p in ps <==> Candidate(g, used, a, p)
    ensures ps != [] && PlainCandidate(g, used, a, ps[0])
    ensures Shortest(g, used, a, Terminals(g.prods[ps[0]].rhs))
  {
    var q: nat :| PlainCandidate(g, used, a, q);
    PlainIsCandidate(g, used, a, q);
    assert ps[0] in ps;
    AtLeastAsGood(g, stack, used, a, ps, q);
    assert OnlyTerminals(g.prods[ps[0]].rhs) by {
      forall i | 0 <= i < |g.prods[ps[0]].rhs| ensures g.prods[ps[0]].rhs[i].T? {
        assert i !in NontermsAt(g.prods[ps[0]].rhs);
      }
    }
    forall p: nat | PlainCandidate(g, used, a, p) ensures |g.prods[ps[0]].rhs| <= |g.prods[p].rhs| {
      AtLeastAsGood(g, stack, used, a, ps, p);
    }
  }

  lemma AtLeastAsGood(g: Grammar, stack: seq<nat>, used: set<nat>, a: nat, ps: seq<nat>, q: nat)
    requires BestFirst(g, stack, ps) && ps != [] && PlainCandidate(g, used, a, q)
    requires forall p: nat :: p in ps <==> Candidate(g, used, a, p)
    ensures ps[0] < |g.prods| && NontermsAt(g.prods[ps[0]].rhs) == {} && |g.prods[ps[0]].rhs| <= |g.prods[q].rhs|
  {
    PlainIsCandidate(g, used, a, q);
    assert ps[0] in ps;
    var j :| 0 <= j < |ps| && ps[j] == q;
    assert |NontermsAt(g.prods[q].rhs)| == 0;
    if j > 0 {
      assert Preferable(g, stack, ps[0], ps[j]);
    }
  }

  class Rewriter {
    const g: Grammar
    var output: seq<nat>
    /** The productions in use, innermost first. */
    var reductionStack: seq<nat>

    constructor (g: Grammar)
      ensures this.g == g && output == [] && reductionStack == []
    {
      this.g, output, reductionStack := g, [], [];
    }

    ghost function Used(): set<nat>
      reads this
    {
      set p | p in reductionStack
    }

    /** Terminals for the input, or nothing: whether there is one does not depend on luck. */
    method RewriteAsTerminals(input: seq<Symbol>) returns (ok: bool)
      requires ProperGrammar(g) && reductionStack == []
      modifies this
      ensures reductionStack == []
      ensures ok <==> exists w :: GeneratesAll(g, Visible(input), w)
      ensures ok ==> exists w :: GeneratesAll(g, Visible(input), w) && output == old(output) + w
      ensures !ok ==> output == old(output)
      ensures forall a: nat :: input == [N(a)] && a != EMPTY && HasPlain(g, {}, a) ==>
                ok && exists w :: Shortest(g, {}, a, w) && output == old(output) + w
    {
      assert Used() == {};
      ghost var w;
      ok, w := RewriteHelper(input);
      if !ok {
        if w' :| GeneratesAll(g, Visible(input), w') {
          DerivableCanRewrite(g, Visible(input), w');
        }
      }
    }

    /** Copy terminals, rewrite nonterminals; on failure take back everything appended. */
    method RewriteHelper(input: seq<Symbol>) returns (ok: bool, ghost w: seq<nat>)
      requires ProperGrammar(g)
      modifies this
      ensures reductionStack == old(reductionStack)
      ensures ok <==> AllCanRewrite(g, Used(), Visible(input))
      ensures ok ==> GeneratesAll(g, Visible(input), w) && output == old(output) + w
      ensures !ok ==> output == old(output)
      ensures ok && OnlyTerminals(input) ==> w == Terminals(input)
      ensures forall a: nat :: input == [N(a)] && a != EMPTY && HasPlain(g, Used(), a) ==>
                ok && Shortest(g, Used(), a, w)
      decreases AllProds(g) - Used(), 2, 0
    {
      var origLength := |output|;
      w := [];
      NothingDerived(g);
      for i := 0 to |input|
        invariant reductionStack == old(reductionStack) && output == old(output) + w
        invariant Rewritten(g, Used(), input[..i], w)
      {
        ghost var xs := input[..i];
        assert input[..i + 1] == xs + [input[i]];
        match input[i]
        case T(t) =>
          TerminalDerives(g, t);
          OneMoreRewritten(g, Used(), xs, w, T(t), [t]);
          output := output + [t];
          w := w + [t];
        case N(a) =>
          if a != EMPTY {
            ghost var v;
            ok, v := RewriteSingleNT(a);
            if !ok {
              ghost var j := VisibleHas(input, i);
              output := output[..origLength];
              return;
            }
            OneMoreRewritten(g, Used(), xs, w, N(a), v);
            w := w + v;
          } else {
            OneMoreRewritten(g, Used(), xs, w, N(a), []);
            assert w + [] == w;
          }
      }
      assert input[..|input|] == input;
      ok := true;
    }

    /** The productions worth trying for `a`, in order of preference. */
    method Candidates(a: nat) returns (candidates: seq<nat>)
      ensures forall p: nat :: p in candidates <==> Candidate(g, Used(), a, p)
      ensures BestFirst(g, reductionStack, candidates)
    {
      candidates := [];
      for p := 0 to |g.prods|
        invariant InOrderOfPreference(g, reductionStack, candidates)
        invariant forall q: nat :: q in candidates <==> q < p && Candidate(g, Used(), a, q)
      {
        if g.prods[p].lhs == a && N(a) !in g.prods[p].rhs && p !in reductionStack {
          candidates := InsertByPreference(candidates, p);
        }
      }
      OrderIsPreference(g, reductionStack, candidates);
    }

    method InsertByPreference(candidates: seq<nat>, p: nat) returns (more: seq<nat>)
      requires p < |g.prods| && p !in candidates && InOrderOfPreference(g, reductionStack, candidates)
      ensures forall q :: q in more <==> q in candidates || q == p
      ensures InOrderOfPreference(g, reductionStack, more)
    {
      var i := 0;
      while i < |candidates| && GoesBeforeIn(g, reductionStack, candidates[i], p)
        invariant 0 <= i <= |candidates|
        invariant forall j :: 0 <= j < i ==>
                    candidates[j] < |g.prods| && GoesBeforeIn(g, reductionStack, candidates[j], p)
      {
        i := i + 1;
      }
      more := candidates[..i] + [p] + candidates[i..];
      assert candidates == candidates[..i] + candidates[i..];
      InsertedInOrder(g, reductionStack, candidates, i, p);
    }

    /** Try each candidate in turn until one succeeds. */
    method RewriteSingleNT(a: nat) returns (ok: bool, ghost w: seq<nat>)
      requires ProperGrammar(g)
      modifies this
      ensures reductionStack == old(reductionStack)
      ensures ok <==> CanRewrite(g, Used(), N(a))
      ensures ok ==> Generates(g, N(a), w) && output == old(output) + w
      ensures !ok ==> output == old(output)
      ensures HasPlain(g, Used(), a) ==> ok && Shortest(g, Used(), a, w)
      decreases AllProds(g) - Used(), 1, 0
    {
      var candidates := Candidates(a);
      if HasPlain(g, Used(), a) {
        PlainFirst(g, reductionStack, Used(), a, candidates);
      }
      ok, w := false, [];
      for k := 0 to |candidates|
        invariant !ok && reductionStack == old(reductionStack) && output == old(output)
        invariant forall j :: 0 <= j < k ==> !RewritesWith(g, Used(), a, candidates[j])
        invariant HasPlain(g, Used(), a) ==> k == 0
      {
        var prod := candidates[k];
        ok, w := TryProduction(a, prod);
        if ok {
          return;
        }
      }
      forall p: nat ensures !RewritesWith(g, Used(), a, p) {
        assert Candidate(g, Used(), a, p) ==> p in candidates;
      }
    }

    method TryProduction(a: nat, prod: nat) returns (ok: bool, ghost w: seq<nat>)
      requires ProperGrammar(g) && Candidate(g, Used(), a, prod)
      modifies this
      ensures reductionStack == old(reductionStack)
      ensures ok <==> RewritesWith(g, Used(), a, prod)
      ensures ok ==> Generates(g, N(a), w) && output == old(output) + w
      ensures !ok ==> output == old(output)
      ensures OnlyTerminals(g.prods[prod].rhs) ==> ok && w == Terminals(g.prods[prod].rhs)
      decreases AllProds(g) - Used(), 0, 0
    {
      ghost var used := Used();
      NatsBelowSize(|g.prods|);
      reductionStack := [prod] + reductionStack;
      assert Used() == used + {prod};
      assert ProperProduction(g, g.prods[prod]);
      AllVisible(g.prods[prod].rhs);
      ok, w := RewriteHelper(g.prods[prod].rhs);
      reductionStack := reductionStack[1..];
      if ok {
        RewritingDerives(g, prod, w);
      }
    }
  }
}
