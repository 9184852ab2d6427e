/** The breadth-first tree over the transition graph, and the shortest string that leads to a state. */
module LeftContext {
  import opened Grammars
  import opened LrMachine

  type Transitions = map<(nat, Symbol), nat>

  ghost predicate Steps(trans: Transitions, u: nat, x: Symbol, s: nat) {
    (u, x) in trans && trans[(u, x)] == s
  }

  /** `w` drives the start state to `s`. */
  ghost predicate Drives(trans: Transitions, w: seq<Symbol>, s: nat)
    decreases |w|
  {
    if w == [] then s == START
    else
      var v, x := w[..|w| - 1], w[|w| - 1];
      exists u: nat :: Steps(trans, u, x, s) && Drives(trans, v, u)
  }

  ghost predicate Reachable(trans: Transitions, s: nat) {
    exists w :: Drives(trans, w, s)
  }

  ghost predicate InRange(trans: Transitions, numTerms: nat, numNonterms: nat) {
    forall e :: e in trans ==> if e.1.T? then e.1.t < numTerms else e.1.n < numNonterms
  }

  /** What is known about the visited states: `dist` is the depth in the tree. */
  ghost predicate BfsTree(trans: Transitions, parent: map<nat, nat>, dist: map<nat, nat>) {
    && START in dist && dist[START] == 0 && START !in parent
    && (forall v :: v in dist && v != START ==> v in parent)
    && (forall v :: v in parent ==> ChildOf(trans, parent, dist, v))
  }

  ghost predicate ChildOf(trans: Transitions, parent: map<nat, nat>, dist: map<nat, nat>, v: nat)
    requires v in parent
  {
    && v in dist && parent[v] in dist && dist[v] == dist[parent[v]] + 1
    && exists x :: Steps(trans, parent[v], x, v)
  }

  /** The queue is in order of depth, spans at most one level, and follows everything done. */
  ghost predicate Layered(dist: map<nat, nat>, done: seq<nat>, queue: seq<nat>, level: nat) {
    && (forall v :: v in done || v in queue <==> v in dist)
    && (forall v :: v in done ==> v in dist && dist[v] <= level)
    && (forall v :: v in queue ==> v in dist && level <= dist[v] <= level + 1)
    && (forall i, j :: 0 <= i < j < |queue| ==>
        queue[i] in dist && queue[j] in dist && dist[queue[i]] <= dist[queue[j]])
  }

  /** The transition of `s` on `x` leads to a visited state at most one level deeper. */
  ghost predicate Covered(trans: Transitions, dist: map<nat, nat>, s: nat, x: Symbol) {
    (s, x) in trans ==> s in dist && trans[(s, x)] in dist && dist[trans[(s, x)]] <= dist[s] + 1
  }

  ghost predicate AllCovered(trans: Transitions, dist: map<nat, nat>, states: set<nat>) {
    forall s: nat, x: Symbol :: s in states ==> Covered(trans, dist, s, x)
  }

  /** If every transition of a visited state is covered, no string is shorter than the depth says. */
  lemma {:induction false} NothingShorter(trans: Transitions, dist: map<nat, nat>, w: seq<Symbol>, s: nat)
    requires START in dist && dist[START] == 0 && AllCovered(trans, dist, dist.Keys)
    requires Drives(trans, w, s)
    ensures s in dist && dist[s] <= |w|
    decreases |w|
  {
    if w != [] {
      var u: nat :| Steps(trans, u, w[|w| - 1], s) && Drives(trans, w[..|w| - 1], u);
      NothingShorter(trans, dist, w[..|w| - 1], u);
      assert Covered(trans, dist, u, w[|w| - 1]);
    }
  }

  lemma DequeueLayered(dist: map<nat, nat>, done: seq<nat>, queue: seq<nat>, level: nat)
    requires Layered(dist, done, queue, level) && queue != []
    ensures queue[0] in dist && Layered(dist, done + [queue[0]], queue[1..], dist[queue[0]])
  {
    assert queue[0] in queue && queue == [queue[0]] + queue[1..];
    forall v | v in queue[1..] ensures v in dist && dist[queue[0]] <= dist[v] {
      var j :| 0 <= j < |queue[1..]| && queue[1..][j] == v;
      assert queue[j + 1] == v;
    }
  }

  lemma EnqueueLayered(dist: map<nat, nat>, done: seq<nat>, queue: seq<nat>, level: nat, target: nat)
    requires Layered(dist, done, queue, level) && target !in dist
    ensures Layered(dist[target := level + 1], done, queue + [target], level)
  {
    var dist', queue' := dist[target := level + 1], queue + [target];
    forall i, j | 0 <= i < j < |queue'|
      ensures queue'[i] in dist' && queue'[j] in dist' && dist'[queue'[i]] <= dist'[queue'[j]]
    {
      assert queue'[i] in queue;
    }
  }

  lemma EnqueueTree(trans: Transitions, parent: map<nat, nat>, dist: map<nat, nat>, source: nat, x: Symbol)
    requires BfsTree(trans, parent, dist) && source in dist && (source, x) in trans && trans[(source, x)] !in dist
    ensures BfsTree(trans, parent[trans[(source, x)] := source], dist[trans[(source, x)] := dist[source] + 1])
  {
    var target := trans[(source, x)];
    var parent', dist' := parent[target := source], dist[target := dist[source] + 1];
    assert Steps(trans, source, x, target);
    forall v | v in parent' ensures ChildOf(trans, parent', dist', v) {
      if v != target {
        assert ChildOf(trans, parent, dist, v);
      }
    }
  }

  lemma CoveredLater(trans: Transitions, dist: map<nat, nat>, states: set<nat>, target: nat, d: nat)
    requires AllCovered(trans, dist, states) && target !in dist
    ensures AllCovered(trans, dist[target := d], states)
  {
    var dist' := dist[target := d];
    forall s: nat, x: Symbol | s in states ensures Covered(trans, dist', s, x) {
      assert Covered(trans, dist, s, x);
    }
  }

  ghost predicate CoveredBy(trans: Transitions, dist: map<nat, nat>, s: nat, symbols: seq<Symbol>) {
    forall j :: 0 <= j < |symbols| ==> Covered(trans, dist, s, symbols[j])
  }

  lemma ExpandedAll(trans: Transitions, dist: map<nat, nat>, source: nat, symbols: seq<Symbol>, expanded: set<nat>,
                    numTerms: nat, numNonterms: nat)
    requires InRange(trans, numTerms, numNonterms) && CoveredBy(trans, dist, source, symbols)
    requires AllCovered(trans, dist, expanded)
    requires forall x: Symbol :: x in symbols <==> if x.T? then x.t < numTerms else x.n < numNonterms
    ensures AllCovered(trans, dist, expanded + {source})
  {
    forall x: Symbol ensures Covered(trans, dist, source, x) {
      if (source, x) in trans {
        assert x in symbols;
      }
    }
  }

  /** What the search knows between two states, the states in `expanded` being finished. */
  ghost predicate Search(trans: Transitions, parent: map<nat, nat>, dist: map<nat, nat>, done: seq<nat>,
                         queue: seq<nat>, level: nat, expanded: set<nat>) {
    && BfsTree(trans, parent, dist) && Layered(dist, done, queue, level) && AllCovered(trans, dist, expanded)
    && Waiting(done, queue)
  }

  /** What waits is not done yet, and waits once. */
  ghost predicate Waiting(done: seq<nat>, queue: seq<nat>) {
    && (forall i :: 0 <= i < |queue| ==> queue[i] !in done)
    && (forall i, j :: 0 <= i < j < |queue| ==> queue[i] != queue[j])
  }

  lemma DequeueWaiting(done: seq<nat>, queue: seq<nat>)
    requires Waiting(done, queue) && queue != []
    ensures Waiting(done + [queue[0]], queue[1..])
  {
  }

  lemma SearchEnqueue(trans: Transitions, parent: map<nat, nat>, dist: map<nat, nat>, done: seq<nat>, queue: seq<nat>,
                      level: nat, expanded: set<nat>, source: nat, x: Symbol)
    requires Search(trans, parent, dist, done, queue, level, expanded)
    requires source in dist && dist[source] == level && (source, x) in trans && trans[(source, x)] !in dist
    ensures var target := trans[(source, x)];
            Search(trans, parent[target := source], dist[target := level + 1], done, queue + [target], level, expanded)
  {
    var target := trans[(source, x)];
    EnqueueTree(trans, parent, dist, source, x);
    EnqueueLayered(dist, done, queue, level, target);
    CoveredLater(trans, dist, expanded, target, level + 1);
    forall i | 0 <= i < |queue| ensures queue[i] != target {
      assert queue[i] in queue;
    }
    assert target !in done;
  }

  lemma SearchDequeue(trans: Transitions, parent: map<nat, nat>, dist: map<nat, nat>, done: seq<nat>, queue: seq<nat>,
                      level: nat, expanded: set<nat>)
    requires Search(trans, parent, dist, done, queue, level, expanded) && queue != []
    ensures queue[0] in dist && Search(trans, parent, dist, done + [queue[0]], queue[1..], dist[queue[0]], expanded)
  {
    DequeueLayered(dist, done, queue, level);
    DequeueWaiting(done, queue);
  }

  class TransitionGraph {
    const trans: Transitions
    const numTerms: nat
    const numNonterms: nat
    /** The parent in the tree; none for the start state. */
    var bfsParent: map<nat, nat>
    /** The depth in the tree. */
    ghost var dist: map<nat, nat>

    constructor (trans: Transitions, numTerms: nat, numNonterms: nat)
      ensures this.trans == trans && this.numTerms == numTerms && this.numNonterms == numNonterms && bfsParent == map[]
    {
      this.trans, this.numTerms, this.numNonterms := trans, numTerms, numNonterms;
      bfsParent, dist := map[], map[];
    }

    /** All symbols, terminals first. */
    method AllSymbols() returns (symbols: seq<Symbol>)
      ensures forall x: Symbol :: x in symbols <==> if x.T? then x.t < numTerms else x.n < numNonterms
    {
      symbols := [];
      for t := 0 to numTerms
        invariant forall x: Symbol :: x in symbols <==> x.T? && x.t < t
      {
        symbols := symbols + [T(t)];
      }
      for n := 0 to numNonterms
        invariant forall x: Symbol :: x in symbols <==> if x.T? then x.t < numTerms else x.n < n
      {
        symbols := symbols + [N(n)];
      }
    }

    /** Link each state to the state from which it is first encountered. */
    method ComputeBFSTree()
      requires InRange(trans, numTerms, numNonterms) && bfsParent == map[]
      modifies this
      ensures BfsTree(trans, bfsParent, dist) && AllCovered(trans, dist, dist.Keys)
    {
      var queue: seq<nat>, done: seq<nat> := [START], [];
      dist := map[START := 0];
      var symbols := AllSymbols();
      ghost var states := {START} + (set e | e in trans :: trans[e]);
      ghost var level: nat, expanded: set<nat> := 0, {};
      while queue != []
        invariant Search(trans, bfsParent, dist, done, queue, level, expanded) && dist.Keys <= states
        invariant forall v :: v in done <==> v in expanded
        decreases states - expanded
      {
        var source := queue[0];
        SearchDequeue(trans, bfsParent, dist, done, queue, level, expanded);
        assert source !in expanded && source in states;
        level := dist[source];
        done := done + [source];
        queue := Expand(source, symbols, done, queue[1..], level, states, expanded);
        expanded := expanded + {source};
      }
      assert dist.Keys <= expanded;
    }

    /** Enqueue the targets of `source` not encountered before. */
    method Expand(source: nat, symbols: seq<Symbol>, done: seq<nat>, queue0: seq<nat>, ghost level: nat,
                  ghost states: set<nat>, ghost expanded: set<nat>) returns (queue: seq<nat>)
      requires Search(trans, bfsParent, dist, done, queue0, level, expanded) && dist.Keys <= states
      requires InRange(trans, numTerms, numNonterms) && forall e :: e in trans ==> trans[e] in states
      requires forall x: Symbol :: x in symbols <==> if x.T? then x.t < numTerms else x.n < numNonterms
      requires source in dist && dist[source] == level
      modifies this
      ensures Search(trans, bfsParent, dist, done, queue, level, expanded + {source}) && dist.Keys <= states
    {
      queue := queue0;
      for i := 0 to |symbols|
        invariant Search(trans, bfsParent, dist, done, queue, level, expanded) && dist.Keys <= states
        invariant source in dist && dist[source] == level && CoveredBy(trans, dist, source, symbols[..i])
      {
        queue := Encounter(source, symbols[i], done, queue, level, states, expanded, symbols[..i]);
        assert symbols[..i + 1] == symbols[..i] + [symbols[i]];
      }
      assert symbols[..|symbols|] == symbols;
      ExpandedAll(trans, dist, source, symbols, expanded, numTerms, numNonterms);
    }

    /** The target of one transition. */
    method Encounter(source: nat, sym: Symbol, done: seq<nat>, queue0: seq<nat>, ghost level: nat,
                     ghost states: set<nat>,
                     ghost expanded: set<nat>, ghost symbols: seq<Symbol>) returns (queue: seq<nat>)
      requires Search(trans, bfsParent, dist, done, queue0, level, expanded) && dist.Keys <= states
      requires forall e :: e in trans ==> trans[e] in states
      requires source in dist && dist[source] == level && CoveredBy(trans, dist, source, symbols)
      modifies this
      ensures Search(trans, bfsParent, dist, done, queue, level, expanded) && dist.Keys <= states
      ensures source in dist && dist[source] == level && CoveredBy(trans, dist, source, symbols + [sym])
    {
      queue := queue0;
      if (source, sym) in trans && trans[(source, sym)] !in done && trans[(source, sym)] !in queue {
        SearchEnqueue(trans, bfsParent, dist, done, queue, level, expanded, source, sym);
        bfsParent := bfsParent[trans[(source, sym)] := source];
        dist := dist[trans[(source, sym)] := level + 1];
        queue := queue + [trans[(source, sym)]];
      }
    }

    /** A symbol on which `source` goes to `target`, terminals first. */
    method InverseTransition(source: nat, target: nat) returns (x: Symbol)
      requires InRange(trans, numTerms, numNonterms) && exists y :: Steps(trans, source, y, target)
      ensures Steps(trans, source, x, target)
    {
      x := T(0);
      ghost var y :| Steps(trans, source, y, target);
      for t := 0 to numTerms
        invariant forall u: nat :: u < t ==> y != T(u)
      {
        if (source, T(t)) in trans && trans[(source, T(t))] == target {
          return T(t);
        }
      }
      for n := 0 to numNonterms
        invariant y.N? && forall u: nat :: u < n ==> y != N(u)
      {
        if (source, N(n)) in trans && trans[(source, N(n))] == target {
          return N(n);
        }
      }
      assert false;
    }

    /** Walk the tree towards the root: a string that leads to `state`, and none is shorter. */
    method LeftContextOf(state0: nat) returns (output: seq<Symbol>)
      requires InRange(trans, numTerms, numNonterms) && BfsTree(trans, bfsParent, dist)
      requires AllCovered(trans, dist, dist.Keys)
      requires Reachable(trans, state0)
      ensures Drives(trans, output, state0)
      ensures forall w :: Drives(trans, w, state0) ==> |output| <= |w|
    {
      ghost var w0 :| Drives(trans, w0, state0);
      NothingShorter(trans, dist, w0, state0);
      output := [];
      var state := state0;
      while state in bfsParent
        invariant state in dist && dist[state] + |output| == dist[state0]
        invariant Leads(trans, state, output, state0)
        decreases dist[state]
      {
        var parent := bfsParent[state];
        assert ChildOf(trans, bfsParent, dist, state);
        var sym := InverseTransition(parent, state);
        LeadsStep(trans, parent, sym, state, output, state0);
        output := [sym] + output;
        state := parent;
      }
      LeadsFromStart(trans, output, state0);
      forall w | Drives(trans, w, state0) ensures |output| <= |w| {
        NothingShorter(trans, dist, w, state0);
      }
    }
  }

  /** `w` drives state `from` to state `s`. */
  ghost predicate Leads(trans: Transitions, from: nat, w: seq<Symbol>, s: nat)
    decreases |w|
  {
    if w == [] then from == s
    else (from, w[0]) in trans && Leads(trans, trans[(from, w[0])], w[1..], s)
  }

  lemma LeadsStep(trans: Transitions, parent: nat, x: Symbol, state: nat, w: seq<Symbol>, s: nat)
    requires Steps(trans, parent, x, state) && Leads(trans, state, w, s)
    ensures Leads(trans, parent, [x] + w, s)
  {
    assert ([x] + w)[1..] == w;
  }

  lemma LeadsFromStart(trans: Transitions, w: seq<Symbol>, s: nat)
    requires Leads(trans, START, w, s)
    ensures Drives(trans, w, s)
  {
    DrivesOn(trans, [], START, w, s);
    assert [] + w == w;
  }

  lemma {:induction false} DrivesOn(trans: Transitions, u: seq<Symbol>, from: nat, w: seq<Symbol>, s: nat)
    requires Drives(trans, u, from) && Leads(trans, from, w, s)
    ensures Drives(trans, u + w, s)
    decreases |w|
  {
    if w == [] {
      assert u + w == u;
    } else {
      var v := u + [w[0]];
      assert v[..|v| - 1] == u && Steps(trans, from, w[0], trans[(from, w[0])]);
      DrivesOn(trans, v, trans[(from, w[0])], w[1..], s);
      assert v + w[1..] == u + w;
    }
  }
}
