/** The total order on nonterminals that the worklist of the parser relies on. */
module NontermOrder {
  import opened Grammars
  import opened LrMachine
  import opened PathQueue
  import opened YieldThenMerge
  import opened Derivability
  import opened DerivabilityMatrix
  import opened FiniteSets

  ghost predicate Transitive(m: Rel) {
    forall a: nat, b: nat, c: nat :: (a, b) in m && (b, c) in m ==> (a, c) in m
  }

  ghost predicate Antisymmetric(m: Rel) {
    forall a: nat, b: nat :: (a, b) in m && (b, a) in m ==> a == b
  }

  /** Derived nonterminals come first. */
  ghost predicate Respects(order: seq<int>, m: Rel) {
    forall a: nat, b: nat :: a < |order| && b < |order| && a != b && (a, b) in m ==> order[b] < order[a]
  }

  ghost predicate Permutation(order: seq<int>) {
    && (forall i :: 0 <= i < |order| ==> 0 <= order[i] < |order|)
    && (forall i, j :: 0 <= i < j < |order| ==> order[i] != order[j])
    && (forall k :: 0 <= k < |order| ==> k in order)
  }

  class Topology {
    const n: nat
    const derivable: array2<bool>
    const order: array<int>
    const seen: array<bool>
    var nextOrdinal: int
    /** The nonterminals that have their ordinal. */
    ghost var placed: set<nat>

    constructor (derivable: array2<bool>)
      requires derivable.Length0 == derivable.Length1
      ensures this.derivable == derivable && n == derivable.Length0 && fresh(order) && fresh(seen)
      ensures Valid() && Pending() == {} && placed == {}
    {
      this.derivable := derivable;
      n := derivable.Length0;
      order := new int[derivable.Length0];
      seen := new bool[derivable.Length0](i => false);
      nextOrdinal := derivable.Length0 - 1;
      placed := {};
    }

    ghost function Marked(): Rel
      reads derivable
    {
      Entries(derivable)
    }

    /** Being expanded: the chain of callers. */
    ghost function Pending(): set<nat>
      reads this, seen
    {
      set x: nat | x < seen.Length && seen[x] && x !in placed
    }

    ghost function Unseen(): set<nat>
      reads this, seen
    {
      set x: nat | x < seen.Length && !seen[x]
    }

    ghost predicate Valid()
      reads this, order, seen, derivable
    {
      && derivable.Length0 == derivable.Length1 == order.Length == seen.Length == n
      && (forall x :: x in placed ==> x < n && seen[x] && nextOrdinal < order[x] < n)
      && (forall x, y :: x in placed && y in placed && x != y ==> order[x] != order[y])
      && (forall k :: nextOrdinal < k < n ==> Used(k))
      && nextOrdinal == n - 1 - |placed|
      && (Transitive(Marked()) && Antisymmetric(Marked()) ==> forall a: nat, b :: b in placed && a < n ==> Later(a, b))
    }

    ghost predicate Used(k: int)
      requires forall x :: x in placed ==> x < order.Length
      reads this, order
    {
      exists x :: x in placed && order[x] == k
    }

    ghost predicate AllSeen(k: nat)
      reads this, seen
    {
      k <= seen.Length && forall x: nat :: x < k ==> seen[x]
    }

    twostate predicate StillSeen()
      reads this, seen
    {
      forall x: nat :: x < seen.Length && old(seen[x]) ==> seen[x]
    }

    /** What derives a placed nonterminal was placed before it. */
    ghost predicate Later(a: nat, b: nat)
      requires a < derivable.Length0 && b < derivable.Length1 && derivable.Length0 == order.Length == derivable.Length1
      reads this, order, derivable
    {
      derivable[a, b] && a != b ==> a in placed && order[b] < order[a]
    }

    lemma DerivesPending(nt: nat, current: nat, open: set<nat>)
      requires derivable.Length0 == derivable.Length1 == n && nt < n && current < n && derivable[nt, current]
      requires forall x :: x in open ==> x < n
      requires Transitive(Marked()) ==> forall x :: x in open && x != current ==> derivable[current, x]
      ensures Transitive(Marked()) ==> forall x :: x in open ==> derivable[nt, x]
    {
      if Transitive(Marked()) {
        forall x | x in open ensures derivable[nt, x] {
          if x != current {
            assert (nt, current) in Marked() && (current, x) in Marked();
            assert (nt, x) in Marked();
          }
        }
      }
    }

    /** Depth-first: whatever derives `current` is placed before it. */
    method TopologicalSort(current: nat)
      requires Valid() && current < n
      requires Transitive(Marked()) ==> forall x :: x in Pending() ==> derivable[current, x]
      modifies this`nextOrdinal, this`placed, order, seen
      ensures Valid() && old(placed) <= placed && Pending() == old(Pending()) && seen[current] && StillSeen()
      decreases Unseen(), 0
    {
      if seen[current] {
        return;
      }
      MarkSeen(current);
      ghost var open, unseen := Pending(), Unseen();
      for nt := 0 to n
        invariant Valid() && old(placed) <= placed && Pending() == open && seen[current] && StillSeen()
        invariant Unseen() <= unseen
        invariant forall x: nat :: x < nt && derivable[x, current] ==> seen[x]
      {
        VisitDeriver(nt, current, open);
      }
      Place(current);
    }

    method MarkSeen(current: nat)
      requires Valid() && current < n && !seen[current]
      modifies seen
      ensures Valid() && Pending() == old(Pending()) + {current} && seen[current] && StillSeen()
      ensures Unseen() < old(Unseen())
    {
      assert current in Unseen();
      seen[current] := true;
      assert current !in Unseen();
      forall k | nextOrdinal < k < n ensures Used(k) {
        assert old(Used(k));
      }
    }

    /** If `nt` can derive `current`, expand it first. */
    method VisitDeriver(nt: nat, current: nat, ghost open: set<nat>)
      requires Valid() && nt < n && current < n && current in Pending() && Pending() == open
      requires Transitive(Marked()) ==> forall x :: x in open && x != current ==> derivable[current, x]
      modifies this`nextOrdinal, this`placed, order, seen
      ensures Valid() && old(placed) <= placed && Pending() == open && StillSeen() && Unseen() <= old(Unseen())
      ensures derivable[nt, current] ==> seen[nt]
      decreases Unseen(), 1
    {
      if derivable[nt, current] {
        DerivesPending(nt, current, open);
        TopologicalSort(nt);
      }
    }

    /** The last ordinal not used yet. */
    method Place(current: nat)
      requires Valid() && current < n && current in Pending()
      requires forall x: nat :: x < n && derivable[x, current] ==> seen[x]
      requires Transitive(Marked()) ==> forall x :: x in Pending() && x != current ==> derivable[current, x]
      modifies this`nextOrdinal, this`placed, order
      ensures Valid() && placed == old(placed) + {current} && order[..] == old(order[..])[current := old(nextOrdinal)]
      ensures nextOrdinal == old(nextOrdinal) - 1
    {
      if Transitive(Marked()) && Antisymmetric(Marked()) {
        forall a: nat | a < n && derivable[a, current] && a != current ensures a in placed {
          assert (a, current) in Marked() && (derivable[current, a] ==> (current, a) in Marked());
        }
      }
      order[current] := nextOrdinal;
      nextOrdinal := nextOrdinal - 1;
      placed := placed + {current};
      forall k | nextOrdinal < k < n ensures Used(k) {
        if k == nextOrdinal + 1 {
          assert order[current] == k;
        } else {
          assert old(Used(k));
        }
      }
      if Transitive(Marked()) && Antisymmetric(Marked()) {
        forall a: nat, b | b in placed && a < n ensures Later(a, b) {
          if b != current {
            assert old(Later(a, b));
          }
        }
      }
    }

    /** Expand from every nonterminal; one already seen is a no-op. */
    method SortAll()
      requires Valid() && Pending() == {} && placed == {}
      modifies this`nextOrdinal, this`placed, order, seen
      ensures nextOrdinal == -1 && Permutation(order[..])
      ensures Transitive(Marked()) ==> (Respects(order[..], Marked()) <==> Antisymmetric(Marked()))
    {
      for nt := 0 to n
        invariant Valid() && Pending() == {} && AllSeen(nt)
      {
        TopologicalSort(nt);
      }
      AllPlaced();
    }

    /** Once everything is placed the ordinals are a permutation, in order if there can be one. */
    lemma AllPlaced()
      requires Valid() && Pending() == {} && AllSeen(n)
      ensures nextOrdinal == -1 && Permutation(order[..])
      ensures Transitive(Marked()) ==> (Respects(order[..], Marked()) <==> Antisymmetric(Marked()))
    {
      NatsBelowSize(n);
      forall x: nat | x < n ensures x in placed {
        assert x !in Pending();
      }
      assert placed == NatsBelow(n);
      forall k | 0 <= k < n ensures k in order[..] {
        assert Used(k);
        ghost var x :| x in placed && order[x] == k;
        assert order[..][x] == k;
      }
      if Transitive(Marked()) {
        if Antisymmetric(Marked()) {
          forall a: nat, b: nat | a < n && b < n && a != b && (a, b) in Marked() ensures order[b] < order[a] {
            assert Later(a, b);
          }
        } else {
          ghost var a: nat, b: nat :| (a, b) in Marked() && (b, a) in Marked() && a != b;
          assert !Respects(order[..], Marked());
        }
      }
    }
  }

  /** The relation is transitive whether or not the analysis stopped early. */
  lemma ClosedIsTransitive(g: Grammar, m: Rel)
    requires RelSound(g, m) && PairsClosed(m)
    ensures Transitive(m)
  {
    forall a: nat, b: nat, c: nat | (a, b) in m && (b, c) in m ensures (a, c) in m {
      assert FromClosed(m, a) && EdgeClosed(m, a, b) && StepClosed(m, a, b, c);
    }
  }

  ghost predicate Acyclic(g: Grammar) {
    forall a: nat :: a < g.numNonterms ==> !Cyclic(g, a)
  }

  /** In a grammar without A =>+ A no two nonterminals derive each other. */
  lemma AcyclicIsAntisymmetric(g: Grammar, m: Rel)
    requires ProperGrammar(g) && RelSound(g, m) && RelComplete(g, m) && Acyclic(g)
    ensures Antisymmetric(m)
  {
    forall a: nat, b: nat | (a, b) in m && (b, a) in m ensures a == b {
      FlagsAndCycles(g, m, a);
      assert a != b ==> Mutual(m, a);
    }
  }

  /** The parse tables carry the order that the sort filled in. */
  ghost predicate OrderTaken(pt: ParseTables, order: seq<int>) {
    forall b: nat :: b < |order| ==> OrderOf(pt, b) == order[b]
  }

  /** An exact order exists exactly for grammars without cycles, and the sort finds it. */
  lemma SortedOrderIsExact(g: Grammar, pt: ParseTables, m: Rel, order: seq<int>)
    requires ProperGrammar(g) && RelSound(g, m) && RelComplete(g, m) && |order| == g.numNonterms
    requires Respects(order, m) <==> Antisymmetric(m)
    requires OrderTaken(pt, order) && forall i :: 0 <= i < |order| ==> 0 <= order[i]
    ensures OrderExact(g, pt) <==> Acyclic(g)
  {
    if Acyclic(g) {
      AcyclicIsAntisymmetric(g, m);
      forall a: nat, b: nat | UnitStep(g, a, b) ensures OrderOf(pt, b) < OrderOf(pt, a) {
        StepStaysProper(g, a, b);
        DerivesOne(g, a, b);
        assert TrulyDerives(g, a, b);
        if a == b {
          DerivesRefl(g, a);
          assert Cyclic(g, a);
        }
      }
    } else {
      var a: nat :| a < g.numNonterms && Cyclic(g, a);
      var b: nat :| UnitStep(g, a, b) && DerivesAlone(g, b, a);
      if OrderExact(g, pt) {
        var chain :| UnitChain(g, chain) && chain[0] == b && chain[|chain| - 1] == a;
        OrderFalls(g, pt, chain);
      }
    }
  }

  lemma {:induction false} OrderFalls(g: Grammar, pt: ParseTables, chain: seq<nat>)
    requires UnitChain(g, chain) && OrderExact(g, pt)
    ensures OrderOf(pt, chain[|chain| - 1]) <= OrderOf(pt, chain[0])
    decreases |chain|
  {
    if |chain| > 1 {
      var k := |chain| - 1;
      assert UnitStep(g, chain[k - 1], chain[k]);
      OrderFalls(g, pt, chain[..k]);
    }
  }
}
