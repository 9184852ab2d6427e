/** Merging the columns and rows of a table whose error entries are don't-cares. */
module TableCompression {
  import opened Grammars
  import opened TerminalSets
  import opened GraphColoring
  import opened ErrorBitmap

  predicate Clash(a1: int, a2: int, err: int) {
    a1 != err && a2 != err && a1 != a2
  }

  /** Some row has different significant entries in columns `t1` and `t2`. */
  ghost predicate ColumnsClash(table: array2<int>, err: int, t1: nat, t2: nat)
    requires t1 < table.Length1 && t2 < table.Length1
    reads table
  {
    exists s: nat :: s < table.Length0 && Clash(table[s, t1], table[s, t2], err)
  }

  ghost predicate RowsClash(table: array2<int>, err: int, s1: nat, s2: nat)
    requires s1 < table.Length0 && s2 < table.Length0
    reads table
  {
    exists t: nat :: t < table.Length1 && Clash(table[s1, t], table[s2, t], err)
  }

  /** The significant entries of column `t` can be read from `shared`. */
  ghost predicate HoldsColumn(table: array2<int>, err: int, t: nat, shared: seq<int>)
    requires t < table.Length1
    reads table
  {
    |shared| == table.Length0 && forall s: nat :: s < table.Length0 && table[s, t] != err ==> shared[s] == table[s, t]
  }

  ghost predicate HoldsRow(table: array2<int>, err: int, s: nat, shared: seq<int>)
    requires s < table.Length0
    reads table
  {
    |shared| == table.Length1 && forall t: nat :: t < table.Length1 && table[s, t] != err ==> shared[t] == table[s, t]
  }

  /** Columns clash exactly if no single column could stand for both. */
  lemma ClashingColumns(table: array2<int>, err: int, t1: nat, t2: nat)
    requires t1 < table.Length1 && t2 < table.Length1
    ensures ColumnsClash(table, err, t1, t2) <==>
            !exists shared :: HoldsColumn(table, err, t1, shared) && HoldsColumn(table, err, t2, shared)
  {
    if !ColumnsClash(table, err, t1, t2) {
      var shared := seq(table.Length0, s requires 0 <= s < table.Length0 reads table =>
        if table[s, t1] != err then table[s, t1] else table[s, t2]);
      forall s: nat | s < table.Length0 && table[s, t2] != err ensures shared[s] == table[s, t2] {
        assert !Clash(table[s, t1], table[s, t2], err);
      }
      assert HoldsColumn(table, err, t1, shared) && HoldsColumn(table, err, t2, shared);
    }
  }

  /** Rows clash exactly if no single row could stand for both. */
  lemma ClashingRows(table: array2<int>, err: int, s1: nat, s2: nat)
    requires s1 < table.Length0 && s2 < table.Length0
    ensures RowsClash(table, err, s1, s2) <==>
            !exists shared :: HoldsRow(table, err, s1, shared) && HoldsRow(table, err, s2, shared)
  {
    if !RowsClash(table, err, s1, s2) {
      var shared := seq(table.Length1, t requires 0 <= t < table.Length1 reads table =>
        if table[s1, t] != err then table[s1, t] else table[s2, t]);
      forall t: nat | t < table.Length1 && table[s2, t] != err ensures shared[t] == table[s2, t] {
        assert !Clash(table[s1, t], table[s2, t], err);
      }
      assert HoldsRow(table, err, s1, shared) && HoldsRow(table, err, s2, shared);
    }
  }

  method DoColumnsClash(table: array2<int>, err: int, t1: nat, t2: nat) returns (yes: bool)
    requires t1 < table.Length1 && t2 < table.Length1
    ensures yes <==> ColumnsClash(table, err, t1, t2)
  {
    for s := 0 to table.Length0
      invariant forall r: nat :: r < s ==> !Clash(table[r, t1], table[r, t2], err)
    {
      if Clash(table[s, t1], table[s, t2], err) {
        return true;
      }
    }
    return false;
  }

  method DoRowsClash(table: array2<int>, err: int, s1: nat, s2: nat) returns (yes: bool)
    requires s1 < table.Length0 && s2 < table.Length0
    ensures yes <==> RowsClash(table, err, s1, s2)
  {
    for t := 0 to table.Length1
      invariant forall u: nat :: u < t ==> !Clash(table[s1, u], table[s2, u], err)
    {
      if Clash(table[s1, t], table[s2, t], err) {
        return true;
      }
    }
    return false;
  }

  /** The graph of clashing columns. */
  method ColumnGraph(table: array2<int>, err: int) returns (graph: array2<bool>)
    ensures fresh(graph) && graph.Length0 == graph.Length1 == table.Length1
    ensures forall t1: nat, t2: nat :: t1 < table.Length1 && t2 < table.Length1 ==>
              (graph[t1, t2] <==> ColumnsClash(table, err, t1, t2))
  {
    var n := table.Length1;
    graph := new bool[n, n]((i, j) => false);
    for t1 := 0 to n
      invariant forall i: nat, j: nat :: i < n && j < n ==>
                (graph[i, j] <==> i < t1 && j < t1 && ColumnsClash(table, err, i, j))
    {
      for t2 := 0 to t1
        invariant forall i: nat, j: nat :: i < n && j < n ==>
                    (graph[i, j] <==>
                     ColumnsClash(table, err, i, j)
                     && ((i < t1 && j < t1) || (i == t1 && j < t2) || (j == t1 && i < t2)))
      {
        var clash := DoColumnsClash(table, err, t1, t2);
        ColumnsClashBoth(table, err, t1, t2);
        if clash {
          graph[t1, t2] := true;
          graph[t2, t1] := true;
        }
      }
      ColumnsClashBoth(table, err, t1, t1);
    }
  }

  lemma ColumnsClashBoth(table: array2<int>, err: int, t1: nat, t2: nat)
    requires t1 < table.Length1 && t2 < table.Length1
    ensures ColumnsClash(table, err, t1, t2) <==> ColumnsClash(table, err, t2, t1)
    ensures t1 == t2 ==> !ColumnsClash(table, err, t1, t2)
  {
    if ColumnsClash(table, err, t1, t2) {
      var s: nat :| s < table.Length0 && Clash(table[s, t1], table[s, t2], err);
      assert Clash(table[s, t2], table[s, t1], err);
    }
    if ColumnsClash(table, err, t2, t1) {
      var s: nat :| s < table.Length0 && Clash(table[s, t2], table[s, t1], err);
      assert Clash(table[s, t1], table[s, t2], err);
    }
  }

  /** Every significant entry of the columns below `n` is found in its row under the mapped column,
      and nothing else is. */
  ghost predicate ColumnsMerged(table: array2<int>, err: int, merged: array2<int>, to: seq<int>, n: nat)
    requires n <= |to| == table.Length1 && merged.Length0 == table.Length0 && InBounds(to, merged.Length1)
    reads table, merged
  {
    && (forall s: nat, t: nat :: s < table.Length0 && t < n && table[s, t] != err ==> merged[s, to[t]] == table[s, t])
    && (forall s: nat, c: nat :: s < merged.Length0 && c < merged.Length1 && merged[s, c] != err ==>
              ColumnSource(table, merged[s, c], to, n, s, c))
  }

  ghost predicate ColumnSource(table: array2<int>, value: int, to: seq<int>, n: nat, s: nat, c: nat)
    requires n <= |to| == table.Length1 && s < table.Length0
    reads table
  {
    exists t: nat :: t < n && to[t] == c && table[s, t] == value
  }

  predicate InBounds(to: seq<int>, bound: nat) {
    forall i :: 0 <= i < |to| ==> 0 <= to[i] < bound
  }

  /** Columns of the same colour do not clash. */
  ghost predicate ColumnsAgree(table: array2<int>, err: int, to: seq<int>)
    requires |to| == table.Length1
    reads table
  {
    forall t1: nat, t2: nat :: t1 < |to| && t2 < |to| && to[t1] == to[t2] ==> !ColumnsClash(table, err, t1, t2)
  }

  /** Merge column `t` of the table into column `to[t]`. */
  method MergeColumn(table: array2<int>, err: int, merged: array2<int>, to: array<int>, t: nat)
    requires table != merged && to.Length == table.Length1 && merged.Length0 == table.Length0
    requires InBounds(to[..], merged.Length1)
    requires t < to.Length && ColumnsAgree(table, err, to[..]) && ColumnsMerged(table, err, merged, to[..], t)
    modifies merged
    ensures ColumnsMerged(table, err, merged, to[..], t + 1)
  {
    var c := to[t];
    for s := 0 to table.Length0
      invariant forall r: nat, d: nat :: r < merged.Length0 && d < merged.Length1 ==>
                  merged[r, d] == if r < s && d == c && table[r, t] != err then table[r, t] else old(merged[r, d])
    {
      var src := table[s, t];
      if src != err {
        assert merged[s, c] == err || merged[s, c] == src by {
          if merged[s, c] != err {
            assert ColumnSource(table, merged[s, c], to[..], t, s, c);
            ghost var u: nat :| u < t && to[..][u] == c && table[s, u] == merged[s, c];
            assert !ColumnsClash(table, err, u, t) && !Clash(table[s, u], table[s, t], err);
          }
        }
        merged[s, c] := src;
      }
    }
    forall s: nat, d: nat | s < merged.Length0 && d < merged.Length1 && merged[s, d] != err
      ensures ColumnSource(table, merged[s, d], to[..], t + 1, s, d)
    {
      if d == c && table[s, t] != err {
        assert to[..][t] == c;
      } else {
        assert old(ColumnSource(table, merged[s, d], to[..], t, s, d));
      }
    }
    forall s: nat, u: nat | s < table.Length0 && u < t + 1 && table[s, u] != err
      ensures merged[s, to[u]] == table[s, u]
    {
      if u < t && to[u] == c && table[s, t] != err {
        assert !ColumnsClash(table, err, u, t) && !Clash(table[s, u], table[s, t], err);
      }
    }
  }

  /** Colour the columns so that equal colours do not clash. */
  method ColorColumns(table: array2<int>, err: int) returns (color: array<int>, numColors: nat)
    ensures fresh(color) && color.Length == table.Length1 && InBounds(color[..], numColors)
    ensures ColumnsAgree(table, err, color[..])
    ensures numColors <= table.Length1
  {
    var graph := ColumnGraph(table, err);
    forall t1: nat, t2: nat | t1 < table.Length1 && t2 < table.Length1
      ensures graph[t1, t2] ==> graph[t2, t1] && t1 != t2
    {
      ColumnsClashBoth(table, err, t1, t2);
    }
    color := new int[table.Length1];
    ghost var order;
    numColors, order := ColorTheGraph(color, graph);
    forall t1: nat, t2: nat | t1 < color.Length && t2 < color.Length && color[..][t1] == color[..][t2]
      ensures !ColumnsClash(table, err, t1, t2)
    {
      assert !graph[t1, t2];
    }
  }

  /** Share columns that do not clash. Fails only if a column number does not fit in the index map. */
  method MergeColumns(table: array2<int>, err: int, limit: nat)
      returns (ok: bool, merged: array2<int>, indexMap: array<int>)
    ensures fresh(merged) && fresh(indexMap) && indexMap.Length == table.Length1 && merged.Length0 == table.Length0
    ensures InBounds(indexMap[..], merged.Length1) && merged.Length1 <= table.Length1
    ensures (ok <==> merged.Length1 <= limit)
    ensures ok ==> ColumnsMerged(table, err, merged, indexMap[..], indexMap.Length)
  {
    var numColors;
    indexMap, numColors := ColorColumns(table, err);
    merged := new int[table.Length0, numColors]((i, j) => err);
    ok := numColors <= limit;
    if ok {
      ghost var to := indexMap[..];
      for t := 0 to table.Length1
        invariant indexMap[..] == to && ColumnsMerged(table, err, merged, to, t)
      {
        MergeColumn(table, err, merged, indexMap, t);
      }
    }
  }

  // ---------------------------------------------------------------- rows

  /** The graph of clashing rows. */
  method RowGraph(table: array2<int>, err: int) returns (graph: array2<bool>)
    ensures fresh(graph) && graph.Length0 == graph.Length1 == table.Length0
    ensures forall s1: nat, s2: nat :: s1 < table.Length0 && s2 < table.Length0 ==>
              (graph[s1, s2] <==> RowsClash(table, err, s1, s2))
  {
    var n := table.Length0;
    graph := new bool[n, n]((i, j) => false);
    for s1 := 0 to n
      invariant forall i: nat, j: nat :: i < n && j < n ==>
                (graph[i, j] <==> i < s1 && j < s1 && RowsClash(table, err, i, j))
    {
      for s2 := 0 to s1
        invariant forall i: nat, j: nat :: i < n && j < n ==>
                    (graph[i, j] <==>
                     RowsClash(table, err, i, j) && ((i < s1 && j < s1) || (i == s1 && j < s2) || (j == s1 && i < s2)))
      {
        var clash := DoRowsClash(table, err, s1, s2);
        RowsClashBoth(table, err, s1, s2);
        if clash {
          graph[s1, s2] := true;
          graph[s2, s1] := true;
        }
      }
      RowsClashBoth(table, err, s1, s1);
    }
  }

  lemma RowsClashBoth(table: array2<int>, err: int, s1: nat, s2: nat)
    requires s1 < table.Length0 && s2 < table.Length0
    ensures RowsClash(table, err, s1, s2) <==> RowsClash(table, err, s2, s1)
    ensures s1 == s2 ==> !RowsClash(table, err, s1, s2)
  {
    if RowsClash(table, err, s1, s2) {
      var t: nat :| t < table.Length1 && Clash(table[s1, t], table[s2, t], err);
      assert Clash(table[s2, t], table[s1, t], err);
    }
    if RowsClash(table, err, s2, s1) {
      var t: nat :| t < table.Length1 && Clash(table[s2, t], table[s1, t], err);
      assert Clash(table[s1, t], table[s2, t], err);
    }
  }

  /** Every significant entry of the rows below `n` is found in its column under the mapped row, and
      nothing else is. */
  ghost predicate RowsMerged(table: array2<int>, err: int, merged: array2<int>, to: seq<int>, n: nat)
    requires n <= |to| == table.Length0 && merged.Length1 == table.Length1 && InBounds(to, merged.Length0)
    reads table, merged
  {
    && (forall s: nat, t: nat :: s < n && t < table.Length1 && table[s, t] != err ==> merged[to[s], t] == table[s, t])
    && (forall c: nat, t: nat :: c < merged.Length0 && t < merged.Length1 && merged[c, t] != err ==>
              RowSource(table, merged[c, t], to, n, c, t))
  }

  ghost predicate RowSource(table: array2<int>, value: int, to: seq<int>, n: nat, c: nat, t: nat)
    requires n <= |to| == table.Length0 && t < table.Length1
    reads table
  {
    exists s: nat :: s < n && to[s] == c && table[s, t] == value
  }

  ghost predicate RowsAgree(table: array2<int>, err: int, to: seq<int>)
    requires |to| == table.Length0
    reads table
  {
    forall s1: nat, s2: nat :: s1 < |to| && s2 < |to| && to[s1] == to[s2] ==> !RowsClash(table, err, s1, s2)
  }

  /** Merge row `s` of the table into row `to[s]`. */
  method MergeRow(table: array2<int>, err: int, merged: array2<int>, to: array<int>, s: nat)
    requires table != merged && to.Length == table.Length0 && merged.Length1 == table.Length1
    requires InBounds(to[..], merged.Length0)
    requires s < to.Length && RowsAgree(table, err, to[..]) && RowsMerged(table, err, merged, to[..], s)
    modifies merged
    ensures RowsMerged(table, err, merged, to[..], s + 1)
  {
    var c := to[s];
    for t := 0 to table.Length1
      invariant forall d: nat, u: nat :: d < merged.Length0 && u < merged.Length1 ==>
                  merged[d, u] == if u < t && d == c && table[s, u] != err then table[s, u] else old(merged[d, u])
    {
      var src := table[s, t];
      if src != err {
        assert merged[c, t] == err || merged[c, t] == src by {
          if merged[c, t] != err {
            assert RowSource(table, merged[c, t], to[..], s, c, t);
            ghost var r: nat :| r < s && to[..][r] == c && table[r, t] == merged[c, t];
            assert !RowsClash(table, err, r, s) && !Clash(table[r, t], table[s, t], err);
          }
        }
        merged[c, t] := src;
      }
    }
    forall d: nat, t: nat | d < merged.Length0 && t < merged.Length1 && merged[d, t] != err
      ensures RowSource(table, merged[d, t], to[..], s + 1, d, t)
    {
      if d == c && table[s, t] != err {
        assert to[..][s] == c;
      } else {
        assert old(RowSource(table, merged[d, t], to[..], s, d, t));
      }
    }
    forall r: nat, t: nat | r < s + 1 && t < table.Length1 && table[r, t] != err
      ensures merged[to[r], t] == table[r, t]
    {
      if r < s && to[r] == c && table[s, t] != err {
        assert !RowsClash(table, err, r, s) && !Clash(table[r, t], table[s, t], err);
      }
    }
  }

  /** Colour the rows so that equal colours do not clash. */
  method ColorRows(table: array2<int>, err: int) returns (color: array<int>, numColors: nat)
    ensures fresh(color) && color.Length == table.Length0 && InBounds(color[..], numColors)
    ensures RowsAgree(table, err, color[..])
  {
    var graph := RowGraph(table, err);
    forall s1: nat, s2: nat | s1 < table.Length0 && s2 < table.Length0
      ensures graph[s1, s2] ==> graph[s2, s1] && s1 != s2
    {
      RowsClashBoth(table, err, s1, s2);
    }
    color := new int[table.Length0];
    ghost var order;
    numColors, order := ColorTheGraph(color, graph);
    forall s1: nat, s2: nat | s1 < color.Length && s2 < color.Length && color[..][s1] == color[..][s2]
      ensures !RowsClash(table, err, s1, s2)
    {
      assert !graph[s1, s2];
    }
  }

  /** Share rows that do not clash. */
  method MergeRows(table: array2<int>, err: int) returns (merged: array2<int>, rowPointers: array<int>)
    ensures fresh(merged) && fresh(rowPointers) && rowPointers.Length == table.Length0
    ensures merged.Length1 == table.Length1
    ensures InBounds(rowPointers[..], merged.Length0)
    ensures RowsMerged(table, err, merged, rowPointers[..], rowPointers.Length)
  {
    var numColors;
    rowPointers, numColors := ColorRows(table, err);
    merged := new int[numColors, table.Length1]((i, j) => err);
    ghost var to := rowPointers[..];
    for s := 0 to table.Length0
      invariant rowPointers[..] == to && RowsMerged(table, err, merged, to, s)
    {
      MergeRow(table, err, merged, rowPointers, s);
    }
  }

  // ---------------------------------------------------------------- the compressed tables

  /** The tables after compression, and the queries made of them while parsing. */
  class CompressedTables {
    const errorAction: int
    const errorBits: array2<bv8>
    const errorBitsPointers: array<nat>
    const actionTable: array2<int>
    const actionIndexMap: array<int>
    const actionRowPointers: array<int>
    const gotoTable: array2<int>
    const gotoIndexMap: array<int>
    const gotoRowPointers: array<int>

    constructor (errorAction: int, errorBits: array2<bv8>, errorBitsPointers: array<nat>,
                 actionTable: array2<int>, actionIndexMap: array<int>, actionRowPointers: array<int>,
                 gotoTable: array2<int>, gotoIndexMap: array<int>, gotoRowPointers: array<int>)
      ensures this.errorAction == errorAction
      ensures this.errorBits == errorBits && this.errorBitsPointers == errorBitsPointers
      ensures this.actionTable == actionTable && this.actionIndexMap == actionIndexMap
      ensures this.actionRowPointers == actionRowPointers
      ensures this.gotoTable == gotoTable && this.gotoIndexMap == gotoIndexMap
      ensures this.gotoRowPointers == gotoRowPointers
    {
      this.errorAction := errorAction;
      this.errorBits, this.errorBitsPointers := errorBits, errorBitsPointers;
      this.actionTable, this.actionIndexMap, this.actionRowPointers := actionTable, actionIndexMap, actionRowPointers;
      this.gotoTable, this.gotoIndexMap, this.gotoRowPointers := gotoTable, gotoIndexMap, gotoRowPointers;
    }

    /** All indices lead somewhere, for `states` states, `terms` terminals and `nonterms` nonterminals. */
    ghost predicate Valid(states: nat, terms: nat, nonterms: nat)
      reads errorBitsPointers, actionIndexMap, actionRowPointers, gotoIndexMap, gotoRowPointers
    {
      && errorBitsPointers.Length == actionRowPointers.Length == gotoRowPointers.Length == states
      && actionIndexMap.Length == terms && gotoIndexMap.Length == nonterms
      && (forall s :: 0 <= s < states ==> errorBitsPointers[s] < errorBits.Length0)
      && terms <= 8 * errorBits.Length1
      && InBounds(actionRowPointers[..], actionTable.Length0) && InBounds(actionIndexMap[..], actionTable.Length1)
      && InBounds(gotoRowPointers[..], gotoTable.Length0) && InBounds(gotoIndexMap[..], gotoTable.Length1)
    }

    /** The entry found by a query: the error bitmap first, then the row pointer, then the column map. */
    ghost function ActionAt(s: nat, t: nat): int
      requires Valid(errorBitsPointers.Length, actionIndexMap.Length, gotoIndexMap.Length)
      requires s < errorBitsPointers.Length && t < actionIndexMap.Length
      reads errorBits, errorBitsPointers, actionTable, actionIndexMap, actionRowPointers, gotoIndexMap, gotoRowPointers
    {
      assert actionRowPointers[..][s] == actionRowPointers[s] && actionIndexMap[..][t] == actionIndexMap[t];
      if BitIn(errorBits, errorBitsPointers[s], t) then errorAction
        else actionTable[actionRowPointers[s], actionIndexMap[t]]
    }

    ghost function GotoAt(s: nat, nt: nat): int
      requires Valid(errorBitsPointers.Length, actionIndexMap.Length, gotoIndexMap.Length)
      requires s < errorBitsPointers.Length && nt < gotoIndexMap.Length
      reads errorBitsPointers, actionIndexMap, actionRowPointers, gotoTable, gotoIndexMap, gotoRowPointers
    {
      assert gotoRowPointers[..][s] == gotoRowPointers[s] && gotoIndexMap[..][nt] == gotoIndexMap[nt];
      gotoTable[gotoRowPointers[s], gotoIndexMap[nt]]
    }

    /** They hold what the plain tables held. */
    ghost predicate Agrees(action: array2<int>, goto: array2<int>, errorGoto: int)
      reads action, goto, errorBits, errorBitsPointers, actionTable, actionIndexMap, actionRowPointers
      reads gotoTable, gotoIndexMap, gotoRowPointers
    {
      && action.Length0 == goto.Length0 && Valid(action.Length0, action.Length1, goto.Length1)
      && (forall s: nat, t: nat :: s < action.Length0 && t < action.Length1 ==>
            (BitIn(errorBits, errorBitsPointers[s], t) <==> action[s, t] == errorAction))
      && Found(action, errorAction, actionTable, actionRowPointers[..], actionIndexMap[..])
      && Found(goto, errorGoto, gotoTable, gotoRowPointers[..], gotoIndexMap[..])
    }

    /** Every query gives the entry of the plain tables; error gotos are never asked for. */
    lemma QueriesAgree(action: array2<int>, goto: array2<int>, errorGoto: int)
      requires Agrees(action, goto, errorGoto)
      ensures forall s: nat, t: nat :: s < action.Length0 && t < action.Length1 ==> ActionAt(s, t) == action[s, t]
      ensures forall s: nat, nt: nat :: s < goto.Length0 && nt < goto.Length1 && goto[s, nt] != errorGoto ==>
                GotoAt(s, nt) == goto[s, nt]
    {
      forall s: nat, t: nat | s < action.Length0 && t < action.Length1 ensures ActionAt(s, t) == action[s, t] {
        assert actionRowPointers[..][s] == actionRowPointers[s] && actionIndexMap[..][t] == actionIndexMap[t];
      }
      forall s: nat, nt: nat | s < goto.Length0 && nt < goto.Length1 && goto[s, nt] != errorGoto
        ensures GotoAt(s, nt) == goto[s, nt]
      {
        assert gotoRowPointers[..][s] == gotoRowPointers[s] && gotoIndexMap[..][nt] == gotoIndexMap[nt];
      }
    }

    /** The query of the error bitmap: is the action of the plain tables an error? */
    method ActionEntryIsError(s: nat, t: nat, ghost action: array2<int>, ghost goto: array2<int>, ghost errorGoto: int)
        returns (yes: bool)
      requires Agrees(action, goto, errorGoto) && s < action.Length0 && t < action.Length1
      ensures yes <==> action[s, t] == errorAction
    {
      yes := HasBit(errorBits[errorBitsPointers[s], t / 8], t % 8);
      assert yes <==> BitIn(errorBits, errorBitsPointers[s], t);
    }

    /** The query for an action gives the entry of the plain tables. */
    method GetActionEntry(s: nat, t: nat, ghost action: array2<int>, ghost goto: array2<int>, ghost errorGoto: int)
        returns (entry: int)
      requires Agrees(action, goto, errorGoto) && s < action.Length0 && t < action.Length1
      ensures entry == action[s, t]
    {
      QueriesAgree(action, goto, errorGoto);
      var isError := ActionEntryIsError(s, t, action, goto, errorGoto);
      if isError {
        return errorAction;
      }
      assert actionRowPointers[..][s] == actionRowPointers[s] && actionIndexMap[..][t] == actionIndexMap[t];
      entry := actionTable[actionRowPointers[s], actionIndexMap[t]];
      assert entry == ActionAt(s, t);
    }

    /** So does the query for a goto, unless it is one that is never asked for. */
    method GetGotoEntry(s: nat, nt: nat, ghost action: array2<int>, ghost goto: array2<int>, ghost errorGoto: int)
        returns (entry: int)
      requires Agrees(action, goto, errorGoto) && s < goto.Length0 && nt < goto.Length1
      ensures goto[s, nt] != errorGoto ==> entry == goto[s, nt]
    {
      QueriesAgree(action, goto, errorGoto);
      assert gotoRowPointers[..][s] == gotoRowPointers[s] && gotoIndexMap[..][nt] == gotoIndexMap[nt];
      entry := gotoTable[gotoRowPointers[s], gotoIndexMap[nt]];
      assert entry == GotoAt(s, nt);
    }
  }

  /** Every significant entry is found through the row pointers and the index map. */
  ghost predicate Found(table: array2<int>, err: int, merged: array2<int>, rows: seq<int>, cols: seq<int>)
    reads table, merged
  {
    && |rows| == table.Length0 && |cols| == table.Length1 && InBounds(rows, merged.Length0)
         && InBounds(cols, merged.Length1)
    && forall s: nat, t: nat :: s < |rows| && t < |cols| && table[s, t] != err ==>
         merged[rows[s], cols[t]] == table[s, t]
  }

  /** Columns first, then the rows of what is left. */
  method MergeTable(table: array2<int>, err: int, limit: nat)
      returns (ok: bool, merged: array2<int>, cols: array<int>, rows: array<int>)
    ensures fresh(merged) && fresh(cols) && fresh(rows)
    ensures ok ==> Found(table, err, merged, rows[..], cols[..])
    ensures table.Length1 <= limit ==> ok
  {
    var narrow;
    ok, narrow, cols := MergeColumns(table, err, limit);
    merged, rows := MergeRows(narrow, err);
    if ok {
      MergedTwice(table, err, narrow, merged, rows[..], cols[..]);
    }
  }

  lemma MergedTwice(table: array2<int>, err: int, narrow: array2<int>, merged: array2<int>, rows: seq<int>,
                    cols: seq<int>)
    requires |cols| == table.Length1 && narrow.Length0 == table.Length0 == |rows| && merged.Length1 == narrow.Length1
    requires InBounds(cols, narrow.Length1) && InBounds(rows, merged.Length0)
    requires ColumnsMerged(table, err, narrow, cols, |cols|) && RowsMerged(narrow, err, merged, rows, |rows|)
    ensures Found(table, err, merged, rows, cols)
  {
    forall s: nat, t: nat | s < |rows| && t < |cols| && table[s, t] != err
      ensures merged[rows[s], cols[t]] == table[s, t]
    {
      assert narrow[s, cols[t]] == table[s, t];
    }
  }

  /** Terminal indices are bytes, nonterminal indices 16 bits wide. */
  const TERM_LIMIT: nat := 256
  const NONTERM_LIMIT: nat := 65536

  /** Factor out the errors, then merge both tables. */
  method Compress(action: array2<int>, errorAction: int, goto: array2<int>, errorGoto: int)
      returns (ok: bool, tables: CompressedTables)
    requires action.Length0 == goto.Length0
    ensures ok ==> tables.errorAction == errorAction && tables.Agrees(action, goto, errorGoto)
    ensures action.Length1 <= TERM_LIMIT && goto.Length1 <= NONTERM_LIMIT ==> ok
  {
    var errorBits, errorBitsPointers := ComputeErrorBits(action, errorAction);
    var ok1, actionTable, actionIndexMap, actionRowPointers := MergeTable(action, errorAction, TERM_LIMIT);
    var ok2, gotoTable, gotoIndexMap, gotoRowPointers := MergeTable(goto, errorGoto, NONTERM_LIMIT);
    tables := new CompressedTables(errorAction, errorBits, errorBitsPointers, actionTable, actionIndexMap,
                                   actionRowPointers,
      gotoTable, gotoIndexMap, gotoRowPointers);
    ok := ok1 && ok2;
  }
}
