/** The priority queue of reduction paths, kept as a sorted list. */
module PathQueue {
  import opened Grammars
  import opened LrMachine
  import opened Gss

  /** A candidate reduction by `prod` over the nodes of `chain`, left edge first. */
  datatype Path = Path(prod: nat, startColumn: nat, chain: seq<nat>)

  function OrderOf(pt: ParseTables, b: nat): nat {
    if b in pt.order then pt.order[b] else 0
  }

  function LhsOf(pt: ParseTables, p: nat): nat
    requires p < |pt.prods|
  {
    pt.prods[p].lhs
  }

  /** Fewer tokens spanned first; for equal spans the nonterminal order decides. */
  predicate KeyBefore(col1: nat, ord1: nat, col2: nat, ord2: nat) {
    col1 > col2 || (col1 == col2 && ord1 < ord2)
  }

  predicate GoesBefore(pt: ParseTables, p1: Path, p2: Path)
    requires p1.prod < |pt.prods| && p2.prod < |pt.prods|
  {
    KeyBefore(p1.startColumn, OrderOf(pt, LhsOf(pt, p1.prod)), p2.startColumn, OrderOf(pt, LhsOf(pt, p2.prod)))
  }

  ghost predicate ProdsOK(pt: ParseTables, q: seq<Path>) {
    forall i :: 0 <= i < |q| ==> q[i].prod < |pt.prods|
  }

  /** No path waits behind one it goes before. */
  ghost predicate Sorted(pt: ParseTables, q: seq<Path>) {
    ProdsOK(pt, q) && forall i, j :: 0 <= i < j < |q| ==> !GoesBefore(pt, q[j], q[i])
  }

  /** Insertion in front of the first path that `p` goes before. */
  function Insert(pt: ParseTables, q: seq<Path>, p: Path): (r: seq<Path>)
    requires ProdsOK(pt, q) && p.prod < |pt.prods|
    ensures ProdsOK(pt, r)
  {
    if q == [] || GoesBefore(pt, p, q[0]) then
      [p] + q
    else
      [q[0]] + Insert(pt, q[1..], p)
  }

  function InsertAll(pt: ParseTables, q: seq<Path>, ps: seq<Path>): (r: seq<Path>)
    requires ProdsOK(pt, q) && ProdsOK(pt, ps)
    ensures ProdsOK(pt, r)
    decreases |ps|
  {
    if ps == [] then q
    else InsertAll(pt, Insert(pt, q, ps[0]), ps[1..])
  }

  lemma {:induction false} InsertCounts(pt: ParseTables, q: seq<Path>, p: Path)
    requires ProdsOK(pt, q) && p.prod < |pt.prods|
    ensures multiset(Insert(pt, q, p)) == multiset(q) + multiset{p}
  {
    if q != [] && !GoesBefore(pt, p, q[0]) {
      assert q == [q[0]] + q[1..];
      InsertCounts(pt, q[1..], p);
    }
  }

  /** Insertion neither loses nor duplicates a path. */
  lemma {:induction false} InsertAllCounts(pt: ParseTables, q: seq<Path>, ps: seq<Path>)
    requires ProdsOK(pt, q) && ProdsOK(pt, ps)
    ensures multiset(InsertAll(pt, q, ps)) == multiset(q) + multiset(ps)
    decreases |ps|
  {
    if ps != [] {
      assert ps == [ps[0]] + ps[1..];
      InsertCounts(pt, q, ps[0]);
      InsertAllCounts(pt, Insert(pt, q, ps[0]), ps[1..]);
    }
  }

  lemma {:induction false} InsertSorted(pt: ParseTables, q: seq<Path>, p: Path)
    requires Sorted(pt, q) && p.prod < |pt.prods|
    ensures Sorted(pt, Insert(pt, q, p))
  {
    if q != [] && !GoesBefore(pt, p, q[0]) {
      var rest := Insert(pt, q[1..], p);
      InsertSorted(pt, q[1..], p);
      InsertCounts(pt, q[1..], p);
      forall x | x in rest ensures !GoesBefore(pt, x, q[0]) {
        assert x in multiset(rest);
        if x != p {
          assert x in q[1..];
        }
      }
    }
  }

  lemma {:induction false} InsertAllSorted(pt: ParseTables, q: seq<Path>, ps: seq<Path>)
    requires Sorted(pt, q) && ProdsOK(pt, ps)
    ensures Sorted(pt, InsertAll(pt, q, ps))
    decreases |ps|
  {
    if ps != [] {
      InsertSorted(pt, q, ps[0]);
      InsertAllSorted(pt, Insert(pt, q, ps[0]), ps[1..]);
    }
  }

  lemma {:induction false} InsertAllConcat(pt: ParseTables, q: seq<Path>, a: seq<Path>, b: seq<Path>)
    requires ProdsOK(pt, q) && ProdsOK(pt, a) && ProdsOK(pt, b)
    ensures InsertAll(pt, q, a + b) == InsertAll(pt, InsertAll(pt, q, a), b)
    decreases |a|
  {
    if a == [] {
      assert a + b == b;
    } else {
      assert (a + b)[1..] == a[1..] + b;
      InsertAllConcat(pt, Insert(pt, q, a[0]), a[1..], b);
    }
  }

  /** Insertion at the position found by walking past every path that need not wait for `p`. */
  lemma {:induction false} InsertAt(pt: ParseTables, q: seq<Path>, p: Path, i: nat)
    requires ProdsOK(pt, q) && p.prod < |pt.prods| && i <= |q|
    requires forall j :: 0 <= j < i ==> !GoesBefore(pt, p, q[j])
    requires i < |q| ==> GoesBefore(pt, p, q[i])
    ensures Insert(pt, q, p) == q[..i] + [p] + q[i..]
  {
    if i > 0 {
      InsertAt(pt, q[1..], p, i - 1);
      assert q[..i] == [q[0]] + q[1..][..i - 1] && q[i..] == q[1..][i - 1..];
    }
  }

  lemma DistinctInsertAll(pt: ParseTables, q: seq<Path>, ps: seq<Path>)
    requires ProdsOK(pt, q) && ProdsOK(pt, ps)
    requires Distinct(q) && Distinct(ps) && forall x :: x in ps ==> x !in q
    ensures Distinct(InsertAll(pt, q, ps))
    ensures forall x :: x in InsertAll(pt, q, ps) <==> x in q || x in ps
  {
    InsertAllCounts(pt, q, ps);
    DistinctUnion(q, ps, InsertAll(pt, q, ps));
  }

  lemma DistinctUnion<A>(a: seq<A>, b: seq<A>, r: seq<A>)
    requires multiset(r) == multiset(a) + multiset(b)
    requires Distinct(a) && Distinct(b) && forall x :: x in b ==> x !in a
    ensures Distinct(r)
    ensures forall x :: x in r <==> x in a || x in b
  {
    forall x ensures x in r <==> x in a || x in b {
      assert x in r <==> x in multiset(r);
    }
    forall i, j | 0 <= i < j < |r| ensures r[i] != r[j] {
      assert r == r[..j] + r[j..];
      assert r[i] in r[..j] && r[j] in r[j..];
      assert multiset(r)[r[i]] == multiset(r[..j])[r[i]] + multiset(r[j..])[r[i]];
      DistinctCount(a, r[i]);
      DistinctCount(b, r[i]);
      assert r[i] in a ==> r[i] !in b;
    }
  }

  lemma {:induction false} DistinctCount<A>(s: seq<A>, x: A)
    requires Distinct(s)
    ensures multiset(s)[x] <= 1
  {
    if s != [] {
      assert s == [s[0]] + s[1..];
      DistinctCount(s[1..], x);
      forall j | 0 <= j < |s[1..]| ensures s[1..][j] != s[0] {
      }
    }
  }
}
