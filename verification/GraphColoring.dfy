/** The greedy colouring that decides which rows or columns of a table may share storage. */
module GraphColoring {
  import opened FiniteSets

  const UNASSIGNED := -1

  ghost predicate Square(graph: array2<bool>) {
    graph.Length0 == graph.Length1
  }

  ghost predicate SymmetricIrreflexive(graph: array2<bool>)
    requires Square(graph)
    reads graph
  {
    && (forall i: nat, j: nat :: i < graph.Length0 && j < graph.Length0 && graph[i, j] ==> graph[j, i])
    && (forall i: nat :: i < graph.Length0 ==> !graph[i, i])
  }

  ghost function Neighbours(graph: array2<bool>, v: nat): set<nat>
    requires v < graph.Length0
    reads graph
  {
    set i: nat | i < graph.Length1 && graph[v, i]
  }

  ghost function Coloured(color: seq<int>, s: set<nat>): set<nat> {
    set i | i in s && i < |color| && color[i] != UNASSIGNED
  }

  ghost predicate Proper(graph: array2<bool>, color: seq<int>)
    requires Square(graph) && |color| == graph.Length0
    reads graph
  {
    forall i: nat, j: nat :: i < |color| && j < |color| && graph[i, j] && color[i] != UNASSIGNED ==>
      color[i] != color[j]
  }

  /** Colours `0..used`, each of them used. */
  ghost predicate Dense(color: seq<int>, used: nat) {
    && (forall i :: 0 <= i < |color| && color[i] != UNASSIGNED ==> 0 <= color[i] < used)
    && (forall c :: 0 <= c < used ==> c in color)
  }

  ghost predicate MaxDegree(graph: array2<bool>, d: nat)
    reads graph
  {
    forall v: nat :: v < graph.Length0 ==> |Neighbours(graph, v)| <= d
  }

  // ---------------------------------------------------------------- sorting the neighbours' colours

  ghost predicate Ascending(s: seq<int>) {
    forall i, j :: 0 <= i < j < |s| ==> s[i] <= s[j]
  }

  ghost predicate Rearranged(a: seq<int>, b: seq<int>) {
    multiset(a) == multiset(b)
  }

  lemma Swapped(a: seq<int>, i: nat, j: nat)
    requires i < j < |a|
    ensures Rearranged(a, a[i := a[j]][j := a[i]])
  {
    var once := a[i := a[j]];
    assert multiset(once) == multiset(a) - multiset{a[i]} + multiset{a[j]};
    assert multiset(once[j := a[i]]) == multiset(once) - multiset{once[j]} + multiset{a[i]};
  }

  lemma SameMembers(a: seq<int>, b: seq<int>)
    requires Rearranged(a, b)
    ensures |a| == |b| && forall x :: x in a <==> x in b
  {
    assert |multiset(a)| == |a| && |multiset(b)| == |b|;
    forall x ensures x in a <==> x in b {
      assert x in a <==> x in multiset(a);
      assert x in b <==> x in multiset(b);
    }
  }

  method SwapWithPrevious(a: array<int>, k: nat)
    requires 0 < k < a.Length
    modifies a
    ensures Rearranged(old(a[..]), a[..])
    ensures a[k - 1] == old(a[k]) && a[k] == old(a[k - 1])
    ensures forall i :: 0 <= i < a.Length && i != k && i != k - 1 ==> a[i] == old(a[i])
  {
    Swapped(a[..], k - 1, k);
    ghost var before := a[..];
    a[k - 1], a[k] := a[k], a[k - 1];
    assert a[..] == before[k - 1 := before[k]][k := before[k - 1]];
  }

  /** Let element `n` sink into the ascending part below it. */
  method SinkInto(a: array<int>, n: nat)
    requires n < a.Length && Ascending(a[..n])
    modifies a
    ensures Ascending(a[..n + 1]) && Rearranged(old(a[..]), a[..])
  {
    assert forall i, j :: 0 <= i < j < n ==> a[..n][i] <= a[..n][j];
    var k := n;
    while k > 0 && a[k - 1] > a[k]
      invariant 0 <= k <= n && Rearranged(old(a[..]), a[..])
      invariant forall i, j :: 0 <= i < j < n + 1 && j != k ==> a[i] <= a[j]
    {
      SwapWithPrevious(a, k);
      k := k - 1;
    }
  }

  /** In place of the library sort. */
  method SortInts(a: array<int>)
    modifies a
    ensures Ascending(a[..]) && Rearranged(old(a[..]), a[..])
  {
    for n := 0 to a.Length
      invariant Rearranged(old(a[..]), a[..]) && Ascending(a[..n])
    {
      SinkInto(a, n);
    }
    assert a[..a.Length] == a[..];
  }

  /** The smallest colour not among the neighbours'. */
  method LowestFree(adjColor: array<int>) returns (selColor: nat)
    requires Ascending(adjColor[..]) && forall i :: 0 <= i < adjColor.Length ==> adjColor[i] >= 0
    ensures selColor !in adjColor[..] && selColor <= adjColor.Length
    ensures forall c :: 0 <= c < selColor ==> c in adjColor[..]
  {
    selColor := 0;
    var j := 0;
    while j < adjColor.Length
      invariant 0 <= j <= adjColor.Length && selColor <= j
      invariant forall i :: 0 <= i < j ==> adjColor[i] < selColor
      invariant forall c :: 0 <= c < selColor ==> c in adjColor[..]
    {
      assert forall i :: j <= i < adjColor.Length ==> adjColor[..][j] <= adjColor[..][i];
      if selColor == adjColor[j] {
        assert adjColor[..][j] == selColor;
        selColor := selColor + 1;
      } else if selColor < adjColor[j] {
        break;
      }
      j := j + 1;
    }
  }

  // ---------------------------------------------------------------- the colouring

  /** What holds between two choices: `blocked` counts the coloured neighbours. */
  ghost predicate Colouring(graph: array2<bool>, color: seq<int>, blocked: seq<int>, used: nat)
    reads graph
  {
    && Square(graph) && |color| == |blocked| == graph.Length0
    && Proper(graph, color) && Dense(color, used)
    && (forall v: nat :: v < |color| ==> blocked[v] == |Coloured(color, Neighbours(graph, v))|)
    && (forall d: nat :: MaxDegree(graph, d) ==> used <= d + 1)
  }

  ghost function Done(color: seq<int>): set<nat> {
    set i: nat | i < |color| && color[i] != UNASSIGNED
  }

  // ---------------------------------------------------------------- the greedy choices

  ghost function Adjacency(graph: array2<bool>): (adj: seq<set<nat>>)
    ensures |adj| == graph.Length0 && forall v: nat :: v < |adj| ==> adj[v] == Neighbours(graph, v)
    reads graph
  {
    seq(graph.Length0, v requires 0 <= v < graph.Length0 reads graph => Neighbours(graph, v))
  }

  /** When the vertices of `earlier` have colours, no other vertex has more coloured neighbours than `v`, and
      of those with as many none has fewer uncoloured ones. */
  ghost predicate MostConstrained(adj: seq<set<nat>>, earlier: set<nat>, v: nat)
    requires v < |adj|
  {
    forall u: nat :: u < |adj| && u !in earlier ==>
      var blockedV, blockedU := |adj[v] * earlier|, |adj[u] * earlier|;
      blockedU < blockedV
      || (blockedU == blockedV && |adj[v] - earlier| <= |adj[u] - earlier|)
  }

  /** `c` is the smallest colour that no earlier neighbour of `v` has. */
  ghost predicate LowestColor(adj: seq<set<nat>>, color: seq<int>, earlier: set<nat>, v: nat, c: int)
    requires v < |adj|
  {
    && c >= 0 && !HasColor(color, adj[v] * earlier, c)
    && forall d :: 0 <= d < c ==> HasColor(color, adj[v] * earlier, d)
  }

  ghost predicate HasColor(color: seq<int>, s: set<nat>, c: int) {
    exists u :: u in s && u < |color| && color[u] == c
  }

  ghost function Before(order: seq<nat>, k: nat): set<nat>
    requires k <= |order|
  {
    set i | 0 <= i < k :: order[i]
  }

  ghost predicate GreedyAt(adj: seq<set<nat>>, color: seq<int>, order: seq<nat>, k: nat)
    requires k < |order|
  {
    && order[k] < |color| == |adj| && order[k] !in Before(order, k)
    && MostConstrained(adj, Before(order, k), order[k])
    && LowestColor(adj, color, Before(order, k), order[k], color[order[k]])
  }

  /** The vertices got their colours in this order, each in its turn the most constrained, each the lowest
      colour that was left. */
  ghost predicate Greedy(adj: seq<set<nat>>, color: seq<int>, order: seq<nat>) {
    Before(order, |order|) == Done(color) && forall k: nat :: k < |order| ==> GreedyAt(adj, color, order, k)
  }

  lemma ChoiceIsGreedy(graph: array2<bool>, color: seq<int>, degree: seq<int>, blocked: seq<int>, used: nat, v: nat)
    requires Colouring(graph, color, blocked, used) && |degree| == |color| && v < |color|
    requires forall u: nat :: u < |color| ==> degree[u] == |Neighbours(graph, u)|
    requires forall u :: 0 <= u < |color| && color[u] == UNASSIGNED ==>
               blocked[u] < blocked[v] || (blocked[u] == blocked[v] && degree[v] - blocked[v] <= degree[u] - blocked[u])
    ensures MostConstrained(Adjacency(graph), Done(color), v)
  {
    forall u: nat | u < |color|
      ensures blocked[u] == |Neighbours(graph, u) * Done(color)|
      ensures degree[u] - blocked[u] == |Neighbours(graph, u) - Done(color)|
    {
      BlockedSplits(graph, color, u);
    }
  }

  lemma BlockedSplits(graph: array2<bool>, color: seq<int>, u: nat)
    requires Square(graph) && u < |color| == graph.Length0
    ensures |Coloured(color, Neighbours(graph, u))| == |Neighbours(graph, u) * Done(color)|
    ensures |Neighbours(graph, u)| == |Neighbours(graph, u) * Done(color)| + |Neighbours(graph, u) - Done(color)|
  {
    assert Coloured(color, Neighbours(graph, u)) == Neighbours(graph, u) * Done(color);
    assert Neighbours(graph, u) == (Neighbours(graph, u) * Done(color)) + (Neighbours(graph, u) - Done(color));
  }

  lemma BeforeOneMore(order: seq<nat>, v: nat)
    ensures Before(order + [v], |order| + 1) == Before(order, |order|) + {v}
    ensures forall k: nat :: k <= |order| ==> Before(order + [v], k) == Before(order, k) <= Before(order, |order|)
  {
    var order' := order + [v];
    assert order'[|order|] == v;
    forall k: nat | k <= |order| ensures Before(order', k) == Before(order, k) <= Before(order, |order|) {
      assert forall i :: 0 <= i < k ==> order'[i] == order[i];
    }
    forall x ensures x in Before(order', |order'|) <==> x in Before(order, |order|) || x == v {
      if x in Before(order', |order'|) {
        var i :| 0 <= i < |order'| && order'[i] == x;
        assert i < |order| ==> order[i] in Before(order, |order|);
      }
    }
  }

  /** A greedy choice after greedy choices. */
  lemma GreedyOn(adj: seq<set<nat>>, color: seq<int>, order: seq<nat>, v: nat, c: int)
    requires Greedy(adj, color, order) && v < |color| == |adj| && color[v] == UNASSIGNED
    requires MostConstrained(adj, Done(color), v) && LowestColor(adj, color, Done(color), v, c)
    ensures Greedy(adj, color[v := c], order + [v])
  {
    var color', order' := color[v := c], order + [v];
    BeforeOneMore(order, v);
    assert Done(color') == Done(color) + {v};
    forall k: nat | k < |order'| ensures GreedyAt(adj, color', order', k) {
      if k < |order| {
        assert GreedyAt(adj, color, order, k) && order[k] in Before(order, |order|);
        assert Before(order, k) <= Done(color);
        SameLowest(adj, color, Before(order, k), order[k], color[order[k]], v, c);
      } else {
        SameLowest(adj, color, Done(color), v, c, v, c);
      }
    }
  }

  /** What colour is the lowest left does not depend on uncoloured vertices. */
  lemma SameLowest(adj: seq<set<nat>>, color: seq<int>, earlier: set<nat>, u: nat, d: int, v: nat, c: int)
    requires v < |color| && u < |adj| && v !in earlier && LowestColor(adj, color, earlier, u, d)
    ensures LowestColor(adj, color[v := c], earlier, u, d)
  {
    var color', s := color[v := c], adj[u] * earlier;
    forall e ensures HasColor(color', s, e) <==> HasColor(color, s, e) {
      if HasColor(color, s, e) {
        var w :| w in s && w < |color| && color[w] == e;
        assert color'[w] == e;
      }
      if HasColor(color', s, e) {
        var w :| w in s && w < |color| && color'[w] == e;
        assert color[w] == e;
      }
    }
    forall e | 0 <= e < d ensures HasColor(color', s, e) {
      assert HasColor(color, s, e);
    }
  }

  method Initialize(graph: array2<bool>, color: array<int>, degree: array<int>, blocked: array<int>)
    requires Square(graph) && color.Length == degree.Length == blocked.Length == graph.Length0
    requires color != degree && color != blocked && degree != blocked
    modifies color, degree, blocked
    ensures forall v: nat :: v < color.Length ==>
              color[v] == UNASSIGNED && blocked[v] == 0 && degree[v] == |Neighbours(graph, v)|
  {
    for i := 0 to color.Length
      invariant forall v: nat :: v < i ==>
                  color[v] == UNASSIGNED && blocked[v] == 0 && degree[v] == |Neighbours(graph, v)|
    {
      color[i] := UNASSIGNED;
      blocked[i] := 0;
      degree[i] := 0;
      ghost var seen: set<nat> := {};
      for j := 0 to color.Length
        invariant seen == (set k: nat | k < j && graph[i, k])
        invariant degree[i] == |seen| && color[i] == UNASSIGNED && blocked[i] == 0
        invariant forall v: nat :: v < i ==>
                    color[v] == UNASSIGNED && blocked[v] == 0 && degree[v] == |Neighbours(graph, v)|
      {
        if graph[i, j] {
          degree[i] := degree[i] + 1;
          seen := seen + {j};
        }
      }
      assert seen == Neighbours(graph, i);
    }
  }

  /** Prefer the most blocked vertex, then the one with the fewest uncoloured neighbours. */
  method ChooseVertex(color: array<int>, degree: array<int>, blocked: array<int>) returns (best: nat)
    requires color.Length == degree.Length == blocked.Length
    requires exists v :: 0 <= v < color.Length && color[v] == UNASSIGNED
    ensures best < color.Length && color[best] == UNASSIGNED
    ensures forall v :: 0 <= v < color.Length && color[v] == UNASSIGNED ==>
              blocked[v] < blocked[best]
              || (blocked[v] == blocked[best] && degree[best] - blocked[best] <= degree[v] - blocked[v])
  {
    var b := -1;
    var bestBlocked, bestUnblocked := 0, 0;
    for choice := 0 to color.Length
      invariant b == -1 ==> forall v :: 0 <= v < choice ==> color[v] != UNASSIGNED
      invariant b != -1 ==> 0 <= b < choice && color[b] == UNASSIGNED
      invariant b != -1 ==> bestBlocked == blocked[b] && bestUnblocked == degree[b] - blocked[b]
      invariant b != -1 ==> forall v :: 0 <= v < choice && color[v] == UNASSIGNED ==>
                  blocked[v] < bestBlocked || (blocked[v] == bestBlocked && bestUnblocked <= degree[v] - blocked[v])
    {
      if color[choice] != UNASSIGNED {
        continue;
      }
      var chBlocked := blocked[choice];
      var chUnblocked := degree[choice] - blocked[choice];
      if b == -1 || chBlocked > bestBlocked || (chBlocked == bestBlocked && chUnblocked < bestUnblocked) {
        b, bestBlocked, bestUnblocked := choice, chBlocked, chUnblocked;
      }
    }
    best := b;
  }

  /** The colours of the coloured neighbours, as many as `blocked` says. */
  method AdjacentColors(graph: array2<bool>, color: array<int>, best: nat, count: nat) returns (adjColor: array<int>)
    requires Square(graph) && color.Length == graph.Length0 && best < color.Length
    requires count == |Coloured(color[..], Neighbours(graph, best))|
    ensures fresh(adjColor) && adjColor.Length == count
    ensures forall i :: 0 <= i < adjColor.Length ==>
              exists v: nat :: v < color.Length && graph[best, v] && color[v] != UNASSIGNED && color[v] == adjColor[i]
    ensures forall v: nat :: v < color.Length && graph[best, v] && color[v] != UNASSIGNED ==> color[v] in adjColor[..]
  {
    adjColor := new int[count](_ => 0);
    var adjIndex := 0;
    ghost var all := Coloured(color[..], Neighbours(graph, best));
    ghost var seen: set<nat> := {};
    for i := 0 to color.Length
      invariant seen == (set v | v in all && v < i) && adjIndex == |seen| <= count
      invariant forall k :: 0 <= k < adjIndex ==>
                exists v: nat :: v < i && graph[best, v] && color[v] != UNASSIGNED && color[v] == adjColor[k]
      invariant forall v: nat :: v < i && graph[best, v] && color[v] != UNASSIGNED ==> color[v] in adjColor[..adjIndex]
    {
      if graph[best, i] && color[i] != UNASSIGNED {
        ghost var before := adjColor[..adjIndex];
        seen := seen + {i};
        assert seen <= all;
        SubsetSize(seen, all);
        adjColor[adjIndex] := color[i];
        adjIndex := adjIndex + 1;
        assert adjColor[..adjIndex] == before + [color[i]];
      }
    }
    assert seen == all;
    assert adjColor[..adjIndex] == adjColor[..];
  }

  /** Colouring `best` with a colour free among its neighbours keeps everything. */
  lemma AssignKeeps(graph: array2<bool>, color: seq<int>, blocked: seq<int>, blocked': seq<int>, used: nat, best: nat,
                    sel: nat)
    requires Colouring(graph, color, blocked, used) && SymmetricIrreflexive(graph) && best < |color|
    requires color[best] == UNASSIGNED && LowestColor(Adjacency(graph), color, Done(color), best, sel)
    requires (forall c :: 0 <= c < sel ==> c in color) && sel <= |Coloured(color, Neighbours(graph, best))|
    requires |blocked'| == |color| && forall v: nat :: v < |color| ==>
              blocked'[v] == blocked[v] + if graph[best, v] then 1 else 0
    ensures Colouring(graph, color[best := sel], blocked', if sel + 1 > used then sel + 1 else used)
  {
    forall v: nat | v < |color| ensures blocked'[v] == |Coloured(color[best := sel], Neighbours(graph, v))| {
      BlockedKeeps(graph, color, best, sel, v);
    }
    forall v: nat | v < |color| && graph[best, v] && color[v] != UNASSIGNED ensures color[v] != sel {
      assert v in Neighbours(graph, best) * Done(color);
    }
    DenseKeeps(color, used, best, sel);
    SubsetSize(Coloured(color, Neighbours(graph, best)), Neighbours(graph, best));
  }

  lemma BlockedKeeps(graph: array2<bool>, color: seq<int>, best: nat, sel: nat, v: nat)
    requires Square(graph) && SymmetricIrreflexive(graph) && best < |color| == graph.Length0 && v < |color|
    requires color[best] == UNASSIGNED
    ensures |Coloured(color[best := sel], Neighbours(graph, v))|
            == |Coloured(color, Neighbours(graph, v))| + if graph[best, v] then 1 else 0
  {
    var a, b := Coloured(color, Neighbours(graph, v)), Coloured(color[best := sel], Neighbours(graph, v));
    assert b == if graph[v, best] then a + {best} else a;
  }

  lemma DenseKeeps(color: seq<int>, used: nat, best: nat, sel: nat)
    requires Dense(color, used) && best < |color| && color[best] == UNASSIGNED
    requires forall c :: 0 <= c < sel ==> c in color
    ensures Dense(color[best := sel], if sel + 1 > used then sel + 1 else used)
  {
    var color' := color[best := sel];
    forall c | 0 <= c < used || c == sel || 0 <= c < sel ensures c in color' {
      if c == sel {
        assert color'[best] == c;
      } else {
        assert c in color;
        var i :| 0 <= i < |color| && color[i] == c;
        assert color'[i] == c;
      }
    }
  }

  /** A colour free among the collected ones is free among the neighbours, and all below it are in use. */
  lemma FreeColor(graph: array2<bool>, color: seq<int>, best: nat, adj: seq<int>, sorted: seq<int>, sel: nat)
    requires Square(graph) && |color| == graph.Length0 && best < |color| && Rearranged(adj, sorted) && sel !in sorted
    requires forall i :: 0 <= i < |adj| ==>
               exists v: nat :: v < |color| && graph[best, v] && color[v] != UNASSIGNED && color[v] == adj[i]
    requires forall v: nat :: v < |color| && graph[best, v] && color[v] != UNASSIGNED ==> color[v] in adj
    requires forall c :: 0 <= c < sel ==> c in sorted
    ensures LowestColor(Adjacency(graph), color, Done(color), best, sel)
    ensures forall c :: 0 <= c < sel ==> c in color
  {
    SameMembers(adj, sorted);
    forall c | 0 <= c < sel ensures c in color && HasColor(color, Neighbours(graph, best) * Done(color), c) {
      assert c in adj;
      var i :| 0 <= i < |adj| && adj[i] == c;
      var v: nat :| v < |color| && graph[best, v] && color[v] != UNASSIGNED && color[v] == adj[i];
      assert v in Neighbours(graph, best) * Done(color);
    }
  }

  /** The lowest-numbered colour that does not conflict with the neighbours of `best`. */
  method SelectColor(graph: array2<bool>, color: array<int>, best: nat, ghost used: nat, count: nat)
      returns (selColor: nat)
    requires Square(graph) && color.Length == graph.Length0 && best < color.Length && Dense(color[..], used)
    requires count == |Coloured(color[..], Neighbours(graph, best))|
    ensures LowestColor(Adjacency(graph), color[..], Done(color[..]), best, selColor)
    ensures (forall c :: 0 <= c < selColor ==> c in color[..]) && selColor <= count
  {
    var adjColor := AdjacentColors(graph, color, best, count);
    ghost var adj := adjColor[..];
    SortInts(adjColor);
    SameMembers(adj, adjColor[..]);
    forall i | 0 <= i < adjColor.Length ensures adjColor[i] >= 0 {
      assert adjColor[..][i] in adj;
    }
    selColor := LowestFree(adjColor);
    FreeColor(graph, color[..], best, adj, adjColor[..], selColor);
  }

  method BlockNeighbours(graph: array2<bool>, blocked: array<int>, best: nat)
    requires Square(graph) && blocked.Length == graph.Length0 && best < blocked.Length
    modifies blocked
    ensures forall v: nat :: v < blocked.Length ==> blocked[v] == old(blocked[v]) + if graph[best, v] then 1 else 0
  {
    for k := 0 to blocked.Length
      invariant forall v: nat :: v < blocked.Length ==>
                blocked[v] == old(blocked[v]) + if v < k && graph[best, v] then 1 else 0
    {
      if graph[best, k] {
        blocked[k] := blocked[k] + 1;
      }
    }
  }

  /** Colour one more vertex. */
  method ColorNext(graph: array2<bool>, color: array<int>, degree: array<int>, blocked: array<int>, usedColors: nat)
      returns (used: nat, ghost best: nat, ghost c: nat)
    requires Square(graph) && SymmetricIrreflexive(graph) && color != blocked && color != degree && blocked != degree
    requires color.Length == degree.Length == blocked.Length && Colouring(graph, color[..], blocked[..], usedColors)
    requires exists v :: 0 <= v < color.Length && color[v] == UNASSIGNED
    requires forall v: nat :: v < color.Length ==> degree[v] == |Neighbours(graph, v)|
    modifies color, blocked
    ensures Colouring(graph, color[..], blocked[..], used)
    ensures best < color.Length && MostConstrained(Adjacency(graph), Done(old(color[..])), best)
    ensures LowestColor(Adjacency(graph), old(color[..]), Done(old(color[..])), best, c)
    ensures best < color.Length && old(color[best]) == UNASSIGNED && color[..] == old(color[..])[best := c]
  {
    ghost var was, wasBlocked := color[..], blocked[..];
    var choice := ChooseVertex(color, degree, blocked);
    ChoiceIsGreedy(graph, was, degree[..], wasBlocked, usedColors, choice);
    var selColor := SelectColor(graph, color, choice, usedColors, blocked[choice]);
    color[choice] := selColor;
    BlockNeighbours(graph, blocked, choice);
    used := if selColor + 1 > usedColors then selColor + 1 else usedColors;
    best, c := choice, selColor;
    assert color[..] == was[best := c];
    AssignKeeps(graph, was, wasBlocked, blocked[..], usedColors, best, c);
  }

  /** One vertex after the other. */
  method ColorAll(graph: array2<bool>, color: array<int>, degree: array<int>, blocked: array<int>)
      returns (usedColors: nat, ghost order: seq<nat>)
    requires Square(graph) && SymmetricIrreflexive(graph) && color != blocked && color != degree && blocked != degree
    requires color.Length == degree.Length == blocked.Length && Colouring(graph, color[..], blocked[..], 0)
    requires Done(color[..]) == {} && forall v: nat :: v < color.Length ==> degree[v] == |Neighbours(graph, v)|
    modifies color, blocked
    ensures Colouring(graph, color[..], blocked[..], usedColors) && |Done(color[..])| == color.Length
    ensures Greedy(Adjacency(graph), color[..], order)
  {
    ghost var adj, was := Adjacency(graph), color[..];
    usedColors, order := 0, [];
    for numColored := 0 to color.Length
      invariant color[..] == was && Colouring(graph, was, blocked[..], usedColors) && |Done(was)| == numColored
      invariant Adjacency(graph) == adj && Greedy(adj, was, order)
      invariant forall v: nat :: v < color.Length ==> degree[v] == |Neighbours(graph, v)|
    {
      NotAllDone(was);
      ghost var best, c;
      usedColors, best, c := ColorNext(graph, color, degree, blocked, usedColors);
      OneMoreDone(was, best, c);
      GreedyOn(adj, was, order, best, c);
      order := order + [best];
      was := color[..];
    }
  }

  /** A proper colouring with dense colours, at most one more than the largest degree. */
  method ColorTheGraph(color: array<int>, graph: array2<bool>) returns (usedColors: nat, ghost order: seq<nat>)
    requires Square(graph) && color.Length == graph.Length0 && SymmetricIrreflexive(graph)
    modifies color
    ensures Proper(graph, color[..]) && Dense(color[..], usedColors)
    ensures forall v :: 0 <= v < color.Length ==> color[v] != UNASSIGNED
    ensures Greedy(Adjacency(graph), color[..], order)
    ensures usedColors <= color.Length && forall d: nat :: MaxDegree(graph, d) ==> usedColors <= d + 1
  {
    var degree := new int[color.Length];
    var blocked := new int[color.Length];
    Initialize(graph, color, degree, blocked);
    Uncoloured(graph, color[..], blocked[..]);
    usedColors, order := ColorAll(graph, color, degree, blocked);
    AllDone(color[..]);
    FewColors(graph, color[..], blocked[..], usedColors);
    CheckAll(graph, color, degree, blocked);
  }

  /** Every vertex has all its neighbours blocked: the final assertions of the colouring never fail. */
  method CheckAll(graph: array2<bool>, color: array<int>, degree: array<int>, blocked: array<int>)
    requires Square(graph) && color.Length == degree.Length == blocked.Length == graph.Length0
    requires forall v: nat :: v < color.Length ==> color[v] != UNASSIGNED && degree[v] == |Neighbours(graph, v)|
    requires forall v: nat :: v < color.Length ==> blocked[v] == |Coloured(color[..], Neighbours(graph, v))|
    ensures forall v :: 0 <= v < color.Length ==> blocked[v] == degree[v]
  {
    for i := 0 to color.Length
      invariant forall v :: 0 <= v < i ==> blocked[v] == degree[v]
    {
      assert Coloured(color[..], Neighbours(graph, i)) == Neighbours(graph, i);
      assert blocked[i] == degree[i] && color[i] != UNASSIGNED;
    }
  }

  /** No vertex is its own neighbour, so there are never more colours than vertices. */
  lemma FewColors(graph: array2<bool>, color: seq<int>, blocked: seq<int>, used: nat)
    requires Colouring(graph, color, blocked, used) && SymmetricIrreflexive(graph)
    ensures used <= |color|
  {
    var n := |color|;
    if n > 0 {
      NatsBelowSize(n);
      forall v: nat | v < n ensures |Neighbours(graph, v)| <= n - 1 {
        SubsetSize(Neighbours(graph, v), NatsBelow(n) - {v});
      }
      assert MaxDegree(graph, n - 1);
    } else if used > 0 {
      UsedColor(color, used, 0);
    }
  }

  lemma UsedColor(color: seq<int>, used: nat, c: nat)
    requires Dense(color, used) && c < used
    ensures c in color
  {
  }

  lemma Uncoloured(graph: array2<bool>, color: seq<int>, blocked: seq<int>)
    requires Square(graph) && |color| == |blocked| == graph.Length0
    requires forall v: nat :: v < |color| ==> color[v] == UNASSIGNED && blocked[v] == 0
    ensures Colouring(graph, color, blocked, 0) && Done(color) == {}
  {
    forall v: nat | v < |color| ensures Coloured(color, Neighbours(graph, v)) == {} {
    }
  }

  lemma AllColoured(color: seq<int>)
    requires forall v :: 0 <= v < |color| ==> color[v] != UNASSIGNED
    ensures |Done(color)| == |color|
  {
    NatsBelowSize(|color|);
    assert Done(color) == NatsBelow(|color|);
  }

  lemma NotAllDone(color: seq<int>)
    requires |Done(color)| < |color|
    ensures exists v :: 0 <= v < |color| && color[v] == UNASSIGNED
  {
    if forall v :: 0 <= v < |color| ==> color[v] != UNASSIGNED {
      AllColoured(color);
    }
  }

  lemma OneMoreDone(color: seq<int>, best: nat, c: nat)
    requires best < |color| && color[best] == UNASSIGNED
    ensures |Done(color[best := c])| == |Done(color)| + 1
  {
    assert Done(color[best := c]) == Done(color) + {best};
  }

  lemma FewerDone(color: seq<int>, v: nat)
    requires v < |color| && color[v] == UNASSIGNED
    ensures |Done(color)| < |color|
  {
    NatsBelowSize(|color|);
    SubsetSize(Done(color), NatsBelow(|color|) - {v});
  }

  lemma AllDone(color: seq<int>)
    requires |Done(color)| == |color|
    ensures forall v :: 0 <= v < |color| ==> color[v] != UNASSIGNED
  {
    if v :| 0 <= v < |color| && color[v] == UNASSIGNED {
      FewerDone(color, v);
    }
  }
}
