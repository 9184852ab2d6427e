/** Sentential forms: the textbook relation =>*, and what it means for the analyses of the grammar. */
module Rewriting {
  import opened Grammars
  import opened Derivability

  /** `s'` comes from `s` by replacing the nonterminal at `i` by the right-hand side of production `p`. */
  ghost predicate RewritesBy(g: Grammar, s: seq<Symbol>, s': seq<Symbol>, i: nat, p: nat) {
    && i < |s| && p < |g.prods| && s[i] == N(g.prods[p].lhs)
    && s' == s[..i] + g.prods[p].rhs + s[i + 1..]
  }

  ghost predicate RewritesOnce(g: Grammar, s: seq<Symbol>, s': seq<Symbol>) {
    exists i: nat, p: nat :: RewritesBy(g, s, s', i, p)
  }

  ghost predicate RewriteChain(g: Grammar, chain: seq<seq<Symbol>>) {
    chain != [] && forall i, j :: 0 <= i < j < |chain| && j == i + 1 ==> RewritesOnce(g, chain[i], chain[j])
  }

  /** s =>* s'. */
  ghost predicate Rewrites(g: Grammar, s: seq<Symbol>, s': seq<Symbol>) {
    exists chain :: RewriteChain(g, chain) && chain[0] == s && chain[|chain| - 1] == s'
  }

  lemma RewritesRefl(g: Grammar, s: seq<Symbol>)
    ensures Rewrites(g, s, s)
  {
    assert RewriteChain(g, [s]) && [s][0] == s;
  }

  lemma RewritesStep(g: Grammar, s: seq<Symbol>, mid: seq<Symbol>, s': seq<Symbol>)
    requires RewritesOnce(g, s, mid) && Rewrites(g, mid, s')
    ensures Rewrites(g, s, s')
  {
    var rest :| RewriteChain(g, rest) && rest[0] == mid && rest[|rest| - 1] == s';
    var chain := [s] + rest;
    forall i, j | 0 <= i < j < |chain| && j == i + 1 ensures RewritesOnce(g, chain[i], chain[j]) {
      if i > 0 {
        assert chain[i] == rest[i - 1] && chain[j] == rest[j - 1];
      }
    }
    assert RewriteChain(g, chain) && chain[0] == s && chain[|chain| - 1] == s';
  }

  lemma RewritesTrans(g: Grammar, a: seq<Symbol>, b: seq<Symbol>, c: seq<Symbol>)
    requires Rewrites(g, a, b) && Rewrites(g, b, c)
    ensures Rewrites(g, a, c)
  {
    var chain :| RewriteChain(g, chain) && chain[0] == a && chain[|chain| - 1] == b;
    ChainTrans(g, chain, c);
  }

  lemma {:induction false} ChainTrans(g: Grammar, chain: seq<seq<Symbol>>, c: seq<Symbol>)
    requires RewriteChain(g, chain) && Rewrites(g, chain[|chain| - 1], c)
    ensures Rewrites(g, chain[0], c)
    decreases |chain|
  {
    if |chain| > 1 {
      ChainTrans(g, chain[1..], c);
      RewritesStep(g, chain[0], chain[1], c);
    }
  }

  /** What can be rewritten can be rewritten in any context. */
  lemma {:induction false} ChainInContext(g: Grammar, u: seq<Symbol>, chain: seq<seq<Symbol>>, v: seq<Symbol>)
    requires RewriteChain(g, chain)
    ensures Rewrites(g, u + chain[0] + v, u + chain[|chain| - 1] + v)
    decreases |chain|
  {
    if |chain| == 1 {
      RewritesRefl(g, u + chain[0] + v);
    } else {
      ChainInContext(g, u, chain[1..], v);
      var s, s' := chain[0], chain[1];
      assert RewritesOnce(g, s, s');
      var i: nat, p: nat :| RewritesBy(g, s, s', i, p);
      var whole := u + s + v;
      assert whole[..|u| + i] == u + s[..i] && whole[|u| + i + 1..] == s[i + 1..] + v;
      assert u + s' + v == whole[..|u| + i] + g.prods[p].rhs + whole[|u| + i + 1..];
      assert RewritesBy(g, whole, u + s' + v, |u| + i, p);
      RewritesStep(g, whole, u + s' + v, u + chain[|chain| - 1] + v);
    }
  }

  lemma InContext(g: Grammar, u: seq<Symbol>, s: seq<Symbol>, s': seq<Symbol>, v: seq<Symbol>)
    requires Rewrites(g, s, s')
    ensures Rewrites(g, u + s + v, u + s' + v)
  {
    var chain :| RewriteChain(g, chain) && chain[0] == s && chain[|chain| - 1] == s';
    ChainInContext(g, u, chain, v);
  }

  lemma ByProduction(g: Grammar, p: nat)
    requires p < |g.prods|
    ensures Rewrites(g, [N(g.prods[p].lhs)], g.prods[p].rhs)
  {
    var s := [N(g.prods[p].lhs)];
    assert s[..0] + g.prods[p].rhs + s[1..] == g.prods[p].rhs;
    assert RewritesBy(g, s, g.prods[p].rhs, 0, p);
    RewritesRefl(g, g.prods[p].rhs);
    RewritesStep(g, s, g.prods[p].rhs, g.prods[p].rhs);
  }

  // ---------------------------------------------------------------- nothing

  ghost predicate AllNullable(g: Grammar, s: seq<Symbol>) {
    forall i :: 0 <= i < |s| ==> Nullable(g, s[i])
  }

  /** One rewriting step backwards: what the right-hand side can do, the left-hand side can. */
  lemma NullableBack(g: Grammar, s: seq<Symbol>, s': seq<Symbol>, i: nat, p: nat)
    requires RewritesBy(g, s, s', i, p) && AllNullable(g, s')
    ensures AllNullable(g, s)
  {
    var n := |g.prods[p].rhs|;
    forall j | 0 <= j < n ensures Nullable(g, g.prods[p].rhs[j]) {
      assert s'[i + j] == g.prods[p].rhs[j];
    }
    NullableBy(g, p);
    forall j | 0 <= j < |s| ensures Nullable(g, s[j]) {
      assert j < i ==> s'[j] == s[j];
      assert j > i ==> s'[j + n - 1] == s[j];
    }
  }

  lemma {:induction false} ChainNothing(g: Grammar, chain: seq<seq<Symbol>>)
    requires RewriteChain(g, chain) && chain[|chain| - 1] == []
    ensures AllNullable(g, chain[0])
    decreases |chain|
  {
    if |chain| > 1 {
      ChainNothing(g, chain[1..]);
      assert RewritesOnce(g, chain[0], chain[1]);
      var i: nat, p: nat :| RewritesBy(g, chain[0], chain[1], i, p);
      NullableBack(g, chain[0], chain[1], i, p);
    }
  }

  lemma {:induction false} TreeToNothing(g: Grammar, tree: Tree, x: Symbol)
    requires Plain(tree) && Produces(g, tree, x) && Yield(tree) == []
    ensures Rewrites(g, [x], [])
  {
    match tree
    case Node(p, kids) =>
      ForestToNothing(g, kids, g.prods[p].rhs);
      ByProduction(g, p);
      RewritesTrans(g, [x], g.prods[p].rhs, []);
  }

  lemma {:induction false} ForestToNothing(g: Grammar, f: Forest, xs: seq<Symbol>)
    requires PlainAll(f) && ProducesAll(g, f, xs) && Yields(f) == []
    ensures Rewrites(g, xs, [])
  {
    match f
    case Nil => RewritesRefl(g, []);
    case Cons(head, tail) =>
      assert Yield(head) == [];
      TreeToNothing(g, head, xs[0]);
      ForestToNothing(g, tail, xs[1..]);
      InContext(g, [], [xs[0]], [], xs[1..]);
      assert [] + [xs[0]] + xs[1..] == xs;
      assert [] + [] + xs[1..] == xs[1..];
      RewritesTrans(g, xs, xs[1..], []);
  }

  /** The symbols that vanish are those with x =>* empty. */
  lemma NullableMeans(g: Grammar, x: Symbol)
    ensures Nullable(g, x) <==> Rewrites(g, [x], [])
  {
    if Nullable(g, x) {
      var tree :| Plain(tree) && Produces(g, tree, x) && Yield(tree) == [];
      TreeToNothing(g, tree, x);
    }
    if Rewrites(g, [x], []) {
      var chain :| RewriteChain(g, chain) && chain[0] == [x] && chain[|chain| - 1] == [];
      ChainNothing(g, chain);
      assert Nullable(g, chain[0][0]);
    }
  }

  lemma {:induction false} ErasePrefix(g: Grammar, u: seq<Symbol>, v: seq<Symbol>)
    requires AllNullable(g, u)
    ensures Rewrites(g, u + v, v)
    decreases |u|
  {
    if u == [] {
      RewritesRefl(g, v);
      assert u + v == v;
    } else {
      ErasePrefix(g, u[1..], v);
      NullableMeans(g, u[0]);
      InContext(g, [], [u[0]], [], u[1..] + v);
      assert [] + [u[0]] + (u[1..] + v) == u + v;
      assert [] + [] + (u[1..] + v) == u[1..] + v;
      RewritesTrans(g, u + v, u[1..] + v, v);
    }
  }

  lemma EraseSuffix(g: Grammar, u: seq<Symbol>, v: seq<Symbol>)
    requires AllNullable(g, v)
    ensures Rewrites(g, u + v, u)
  {
    ErasePrefix(g, v, []);
    assert v + [] == v;
    InContext(g, u, v, [], []);
    assert u + v + [] == u + v && u + [] + [] == u;
  }

  // ---------------------------------------------------------------- one nonterminal alone

  ghost predicate AloneAt(g: Grammar, s: seq<Symbol>, b: nat, i: nat) {
    && i < |s| && s[i].N? && DerivesAlone(g, s[i].n, b)
    && forall j :: 0 <= j < |s| && j != i ==> Nullable(g, s[j])
  }

  /** Symbol `k` of the result came out of the production. */
  lemma AloneInside(g: Grammar, s: seq<Symbol>, s': seq<Symbol>, i: nat, p: nat, b: nat, k: nat)
    requires RewritesBy(g, s, s', i, p) && AloneAt(g, s', b, k) && i <= k < i + |g.prods[p].rhs|
    ensures AloneAt(g, s, b, i)
  {
    var a, rhs := g.prods[p].lhs, g.prods[p].rhs;
    forall j | 0 <= j < |rhs| && j != k - i ensures Nullable(g, rhs[j]) {
      assert s'[i + j] == rhs[j];
    }
    assert s'[k] == rhs[k - i];
    assert UnitStepBy(g, a, rhs[k - i].n, p, k - i);
    DerivesOne(g, a, rhs[k - i].n);
    DerivesTrans(g, a, rhs[k - i].n, b);
    OthersBack(g, s, s', i, p, i, k);
  }

  /** Everything but the rewritten symbol and `m` is nullable when everything but `k` was. */
  lemma OthersBack(g: Grammar, s: seq<Symbol>, s': seq<Symbol>, i: nat, p: nat, m: nat, k: nat)
    requires RewritesBy(g, s, s', i, p) && forall j :: 0 <= j < |s'| && j != k ==> Nullable(g, s'[j])
    requires if k < i then m == k else if k < i + |g.prods[p].rhs| then m == i else m == k - |g.prods[p].rhs| + 1
    ensures forall j :: 0 <= j < |s| && j != i && j != m ==> Nullable(g, s[j])
  {
    forall j | 0 <= j < |s| && j != i && j != m ensures Nullable(g, s[j]) {
      var j' := if j < i then j else j + |g.prods[p].rhs| - 1;
      assert s'[j'] == s[j];
    }
  }

  lemma AloneOutside(g: Grammar, s: seq<Symbol>, s': seq<Symbol>, i: nat, p: nat, b: nat, k: nat) returns (m: nat)
    requires RewritesBy(g, s, s', i, p) && AloneAt(g, s', b, k) && !(i <= k < i + |g.prods[p].rhs|)
    ensures AloneAt(g, s, b, m)
  {
    var rhs := g.prods[p].rhs;
    forall j | 0 <= j < |rhs| ensures Nullable(g, rhs[j]) {
      assert s'[i + j] == rhs[j];
    }
    NullableBy(g, p);
    m := if k < i then k else k - |rhs| + 1;
    assert s[m] == s'[k];
    OthersBack(g, s, s', i, p, m, k);
  }

  lemma {:induction false} ChainAlone(g: Grammar, chain: seq<seq<Symbol>>, b: nat) returns (k: nat)
    requires RewriteChain(g, chain) && chain[|chain| - 1] == [N(b)]
    ensures AloneAt(g, chain[0], b, k)
    decreases |chain|
  {
    if |chain| == 1 {
      DerivesRefl(g, b);
      k := 0;
    } else {
      k := ChainAlone(g, chain[1..], b);
      assert RewritesOnce(g, chain[0], chain[1]);
      var i: nat, p: nat :| RewritesBy(g, chain[0], chain[1], i, p);
      if i <= k < i + |g.prods[p].rhs| {
        AloneInside(g, chain[0], chain[1], i, p, b, k);
        k := i;
      } else {
        k := AloneOutside(g, chain[0], chain[1], i, p, b, k);
      }
    }
  }

  lemma UnitStepRewrites(g: Grammar, a: nat, b: nat)
    requires UnitStep(g, a, b)
    ensures Rewrites(g, [N(a)], [N(b)])
  {
    var p: nat, i: nat :| UnitStepBy(g, a, b, p, i);
    var rhs := g.prods[p].rhs;
    ByProduction(g, p);
    var u, v := rhs[..i], rhs[i + 1..];
    assert rhs == u + ([N(b)] + v);
    ErasePrefix(g, u, [N(b)] + v);
    EraseSuffix(g, [N(b)], v);
    RewritesTrans(g, [N(a)], rhs, [N(b)] + v);
    RewritesTrans(g, [N(a)], [N(b)] + v, [N(b)]);
  }

  lemma {:induction false} UnitChainRewrites(g: Grammar, chain: seq<nat>)
    requires UnitChain(g, chain)
    ensures Rewrites(g, [N(chain[0])], [N(chain[|chain| - 1])])
    decreases |chain|
  {
    if |chain| == 1 {
      RewritesRefl(g, [N(chain[0])]);
    } else {
      UnitChainRewrites(g, chain[1..]);
      UnitStepRewrites(g, chain[0], chain[1]);
      RewritesTrans(g, [N(chain[0])], [N(chain[1])], [N(chain[|chain| - 1])]);
    }
  }

  /** The relation of the derivability matrix is A =>* B. */
  lemma DerivesAloneMeans(g: Grammar, a: nat, b: nat)
    ensures DerivesAlone(g, a, b) <==> Rewrites(g, [N(a)], [N(b)])
  {
    if DerivesAlone(g, a, b) {
      var chain :| UnitChain(g, chain) && chain[0] == a && chain[|chain| - 1] == b;
      UnitChainRewrites(g, chain);
    }
    if Rewrites(g, [N(a)], [N(b)]) {
      var chain :| RewriteChain(g, chain) && chain[0] == [N(a)] && chain[|chain| - 1] == [N(b)];
      var k := ChainAlone(g, chain, b);
    }
  }

  // ---------------------------------------------------------------- first terminals

  /** `x` may begin with terminal `t`, within `depth` uses of productions. */
  ghost predicate Begins(g: Grammar, x: Symbol, t: nat, depth: nat)
    decreases depth
  {
    match x
    case T(u) => u == t
    case N(a) => depth > 0 && exists p: nat, i: nat :: BeginsBy(g, a, t, depth, p, i)
  }

  ghost predicate BeginsBy(g: Grammar, a: nat, t: nat, depth: nat, p: nat, i: nat)
    requires depth > 0
    decreases depth, 0
  {
    && p < |g.prods| && g.prods[p].lhs == a && i < |g.prods[p].rhs|
    && (forall j :: 0 <= j < i ==> Nullable(g, g.prods[p].rhs[j]))
    && Begins(g, g.prods[p].rhs[i], t, depth - 1)
  }

  ghost predicate BeginsAt(g: Grammar, s: seq<Symbol>, t: nat, depth: nat, i: nat) {
    i < |s| && Begins(g, s[i], t, depth) && AllNullable(g, s[..i])
  }

  ghost predicate BeginsAny(g: Grammar, s: seq<Symbol>, t: nat) {
    exists depth: nat, i: nat :: BeginsAt(g, s, t, depth, i)
  }

  lemma {:induction false} BeginsDeeper(g: Grammar, x: Symbol, t: nat, depth: nat, deeper: nat)
    requires Begins(g, x, t, depth) && depth <= deeper
    ensures Begins(g, x, t, deeper)
    decreases depth
  {
    if x.N? {
      var p: nat, i: nat :| BeginsBy(g, x.n, t, depth, p, i);
      BeginsDeeper(g, g.prods[p].rhs[i], t, depth - 1, deeper - 1);
      assert BeginsBy(g, x.n, t, deeper, p, i);
    }
  }

  lemma BeginsBack(g: Grammar, s: seq<Symbol>, s': seq<Symbol>, i: nat, p: nat, t: nat)
    requires RewritesBy(g, s, s', i, p) && BeginsAny(g, s', t)
    ensures BeginsAny(g, s, t)
  {
    var rhs := g.prods[p].rhs;
    var depth: nat, k: nat :| BeginsAt(g, s', t, depth, k);
    forall j | 0 <= j < k ensures Nullable(g, s'[j]) {
      assert s'[..k][j] == s'[j];
    }
    if k < i {
      assert BeginsAt(g, s, t, depth, k) by {
        assert s[..k] == s'[..k] && s[k] == s'[k];
      }
    } else if k < i + |rhs| {
      BeginsInside(g, s, s', i, p, t, depth, k);
    } else {
      BeginsAfter(g, s, s', i, p, t, depth, k);
    }
  }

  /** The first terminal comes out of the production. */
  lemma BeginsInside(g: Grammar, s: seq<Symbol>, s': seq<Symbol>, i: nat, p: nat, t: nat, depth: nat, k: nat)
    requires RewritesBy(g, s, s', i, p) && i <= k < i + |g.prods[p].rhs| && Begins(g, s'[k], t, depth)
    requires forall j :: 0 <= j < k ==> Nullable(g, s'[j])
    ensures BeginsAny(g, s, t)
  {
    var rhs := g.prods[p].rhs;
    assert s'[k] == rhs[k - i] && s'[..i] == s[..i];
    forall j | 0 <= j < k - i ensures Nullable(g, rhs[j]) {
      assert s'[i + j] == rhs[j];
    }
    assert BeginsBy(g, g.prods[p].lhs, t, depth + 1, p, k - i);
    forall j | 0 <= j < i ensures Nullable(g, s[..i][j]) {
      assert s'[j] == s[j];
    }
    assert BeginsAt(g, s, t, depth + 1, i);
  }

  /** The production vanishes, and the first terminal comes after it. */
  lemma BeginsAfter(g: Grammar, s: seq<Symbol>, s': seq<Symbol>, i: nat, p: nat, t: nat, depth: nat, k: nat)
    requires RewritesBy(g, s, s', i, p) && i + |g.prods[p].rhs| <= k < |s'| && Begins(g, s'[k], t, depth)
    requires forall j :: 0 <= j < k ==> Nullable(g, s'[j])
    ensures BeginsAny(g, s, t)
  {
    var rhs := g.prods[p].rhs;
    var n := |rhs|;
    forall j | 0 <= j < n ensures Nullable(g, rhs[j]) {
      assert s'[i + j] == rhs[j];
    }
    NullableBy(g, p);
    var m := k - n + 1;
    forall j | 0 <= j < m ensures Nullable(g, s[..m][j]) {
      assert j < i ==> s'[j] == s[j];
      assert j > i ==> s'[j + n - 1] == s[j];
    }
    assert s'[k] == s[m];
    assert BeginsAt(g, s, t, depth, m);
  }

  lemma {:induction false} ChainBegins(g: Grammar, chain: seq<seq<Symbol>>, t: nat, alpha: seq<Symbol>)
    requires RewriteChain(g, chain) && chain[|chain| - 1] == [T(t)] + alpha
    ensures BeginsAny(g, chain[0], t)
    decreases |chain|
  {
    if |chain| == 1 {
      assert BeginsAt(g, chain[0], t, 0, 0);
    } else {
      ChainBegins(g, chain[1..], t, alpha);
      assert RewritesOnce(g, chain[0], chain[1]);
      var i: nat, p: nat :| RewritesBy(g, chain[0], chain[1], i, p);
      BeginsBack(g, chain[0], chain[1], i, p, t);
    }
  }

  lemma {:induction false} BeginsRewrites(g: Grammar, x: Symbol, t: nat, depth: nat) returns (alpha: seq<Symbol>)
    requires Begins(g, x, t, depth)
    ensures Rewrites(g, [x], [T(t)] + alpha)
    decreases depth
  {
    match x
    case T(_) =>
      alpha := [];
      RewritesRefl(g, [x]);
      assert [T(t)] + alpha == [x];
    case N(a) =>
      var p: nat, i: nat :| BeginsBy(g, a, t, depth, p, i);
      var rhs := g.prods[p].rhs;
      var beta := BeginsRewrites(g, rhs[i], t, depth - 1);
      ByProduction(g, p);
      alpha := beta + rhs[i + 1..];
      FormRewrites(g, rhs, i, [T(t)] + beta);
      assert [T(t)] + beta + rhs[i + 1..] == [T(t)] + alpha;
      RewritesTrans(g, [x], rhs, [T(t)] + alpha);
  }

  /** Erase what is before position `i` and rewrite the symbol there. */
  lemma FormRewrites(g: Grammar, s: seq<Symbol>, i: nat, w: seq<Symbol>)
    requires i < |s| && AllNullable(g, s[..i]) && Rewrites(g, [s[i]], w)
    ensures Rewrites(g, s, w + s[i + 1..])
  {
    ErasePrefix(g, s[..i], s[i..]);
    assert s[..i] + s[i..] == s;
    InContext(g, [], [s[i]], w, s[i + 1..]);
    assert [] + [s[i]] + s[i + 1..] == s[i..];
    assert [] + w + s[i + 1..] == w + s[i + 1..];
    RewritesTrans(g, s, s[i..], w + s[i + 1..]);
  }

  /** First(s) = { t | s =>* t alpha }. */
  ghost predicate InFirst(g: Grammar, s: seq<Symbol>, t: nat) {
    exists alpha: seq<Symbol> :: Rewrites(g, s, [T(t)] + alpha)
  }

  lemma FirstMeans(g: Grammar, s: seq<Symbol>, t: nat)
    ensures InFirst(g, s, t) <==> BeginsAny(g, s, t)
  {
    if InFirst(g, s, t) {
      var alpha: seq<Symbol> :| Rewrites(g, s, [T(t)] + alpha);
      var chain :| RewriteChain(g, chain) && chain[0] == s && chain[|chain| - 1] == [T(t)] + alpha;
      ChainBegins(g, chain, t, alpha);
    }
    if BeginsAny(g, s, t) {
      var depth: nat, i: nat :| BeginsAt(g, s, t, depth, i);
      var beta := BeginsRewrites(g, s[i], t, depth);
      FormRewrites(g, s, i, [T(t)] + beta);
      assert [T(t)] + beta + s[i + 1..] == [T(t)] + (beta + s[i + 1..]);
    }
  }
}
