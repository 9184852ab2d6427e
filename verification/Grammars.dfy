/** Context-free grammars, parse trees and the strings they derive. */
module Grammars {

  datatype Option<+A> = None | Some(value: A)

  datatype Symbol = T(t: nat) | N(n: nat)

  datatype Production = Production(lhs: nat, rhs: seq<Symbol>)

  datatype Grammar = Grammar(numTerms: nat, numNonterms: nat, prods: seq<Production>)

  /** The values on sibling links: `Alt` is the result of merging two alternative parses. */
  datatype Tree = Leaf(t: nat) | Node(prod: nat, kids: Forest) | Alt(left: Tree, right: Tree)

  datatype Forest = Nil | Cons(head: Tree, tail: Forest)

  function Yield(tree: Tree): seq<nat> {
    match tree
    case Leaf(t) => [t]
    case Node(_, kids) => Yields(kids)
    case Alt(left, _) => Yield(left)
  }

  function Yields(f: Forest): seq<nat> {
    match f
    case Nil => []
    case Cons(head, tail) => Yield(head) + Yields(tail)
  }

  /** `tree` is a parse tree with root `x`; both sides of a merge have the same root and yield. */
  ghost predicate Produces(g: Grammar, tree: Tree, x: Symbol) {
    match tree
    case Leaf(t) => x == T(t)
    case Node(p, kids) => p < |g.prods| && x == N(g.prods[p].lhs) && ProducesAll(g, kids, g.prods[p].rhs)
    case Alt(left, right) => Produces(g, left, x) && Produces(g, right, x) && Yield(left) == Yield(right)
  }

  ghost predicate ProducesAll(g: Grammar, f: Forest, xs: seq<Symbol>) {
    match f
    case Nil => xs == []
    case Cons(head, tail) => xs != [] && Produces(g, head, xs[0]) && ProducesAll(g, tail, xs[1..])
  }

  /** An ordinary parse tree: no merged alternatives. */
  predicate Plain(tree: Tree) {
    match tree
    case Leaf(_) => true
    case Node(_, kids) => PlainAll(kids)
    case Alt(_, _) => false
  }

  predicate PlainAll(f: Forest) {
    match f
    case Nil => true
    case Cons(head, tail) => Plain(head) && PlainAll(tail)
  }

  /** `w` is a terminal string derived by the symbol `x`. */
  ghost predicate Generates(g: Grammar, x: Symbol, w: seq<nat>) {
    exists tree :: Plain(tree) && Produces(g, tree, x) && Yield(tree) == w
  }

  ghost predicate GeneratesAll(g: Grammar, xs: seq<Symbol>, w: seq<nat>) {
    exists f :: PlainAll(f) && ProducesAll(g, f, xs) && Yields(f) == w
  }

  ghost predicate Nullable(g: Grammar, x: Symbol) {
    Generates(g, x, [])
  }

  /** `a` rewrites to `b` alone by one production whose other symbols all vanish. */
  ghost predicate UnitStep(g: Grammar, a: nat, b: nat) {
    exists p, i :: UnitStepBy(g, a, b, p, i)
  }

  ghost predicate UnitStepBy(g: Grammar, a: nat, b: nat, p: nat, i: nat) {
    && p < |g.prods| && g.prods[p].lhs == a
    && i < |g.prods[p].rhs| && g.prods[p].rhs[i] == N(b)
    && forall j :: 0 <= j < |g.prods[p].rhs| && j != i ==> Nullable(g, g.prods[p].rhs[j])
  }

  /** Keeps the left alternative of every merge. */
  function Pick(tree: Tree): Tree {
    match tree
    case Leaf(t) => tree
    case Node(p, kids) => Node(p, PickAll(kids))
    case Alt(left, _) => Pick(left)
  }

  function PickAll(f: Forest): Forest {
    match f
    case Nil => Nil
    case Cons(head, tail) => Cons(Pick(head), PickAll(tail))
  }

  lemma {:induction false} PickProduces(g: Grammar, tree: Tree, x: Symbol)
    requires Produces(g, tree, x)
    ensures Plain(Pick(tree)) && Produces(g, Pick(tree), x) && Yield(Pick(tree)) == Yield(tree)
  {
    match tree
    case Leaf(_) =>
    case Node(p, kids) => PickProducesAll(g, kids, g.prods[p].rhs);
    case Alt(left, _) => PickProduces(g, left, x);
  }

  lemma {:induction false} PickProducesAll(g: Grammar, f: Forest, xs: seq<Symbol>)
    requires ProducesAll(g, f, xs)
    ensures PlainAll(PickAll(f)) && ProducesAll(g, PickAll(f), xs) && Yields(PickAll(f)) == Yields(f)
  {
    match f
    case Nil =>
    case Cons(head, tail) =>
      PickProduces(g, head, xs[0]);
      PickProducesAll(g, tail, xs[1..]);
  }

  /** A value with merged alternatives still witnesses a derivation of its yield. */
  lemma TreeGenerates(g: Grammar, tree: Tree, x: Symbol)
    requires Produces(g, tree, x)
    ensures Generates(g, x, Yield(tree))
  {
    PickProduces(g, tree, x);
  }
}
