/** The whole way from actions and gotos to encoded, finished and compressed tables. */
module TablePacking {
  import opened Grammars
  import opened LrMachine
  import opened TableEncoding
  import opened TableCompression

  /** The cell reads as `a`, now and after whatever is encoded later. */
  ghost predicate ReadsAs(dt: DeltaTables, code: int, s: nat, t: nat, a: Action) {
    0 <= code < 256 && DecodeDelta(dt, code, s, t) == Some(a)
  }

  lemma ReadsLater(a: DeltaTables, b: DeltaTables, code: int, s: nat, t: nat, act: Action)
    requires ReadsAs(a, code, s, t, act) && Extends(a, b)
    ensures ReadsAs(b, code, s, t, act)
  {
    DeltaCellsLast(a, b, code, s, t);
  }

  // ---------------------------------------------------------------- what there is room for

  /** The shift of the cell, if any, goes to one of the first 64 states of its terminal. */
  ghost predicate ShiftInReach(a: Action, first: nat) {
    match a
    case Shift(dest) => first <= dest <= first + AE_MAXINDEX
    case Ambig(acts) => forall dest: nat :: Shift(dest) in acts ==> first <= dest <= first + AE_MAXINDEX
    case _ => true
  }

  function AmbigCells(a: Action): nat {
    if a.Ambig? then |a.acts| + 1 else 0
  }

  /** The cells that the ambiguous actions of state `s` under the first `n` terminals would take unshared. */
  function AmbigCellsOf(pt: ParseTables, s: nat, n: nat): nat {
    if n == 0 then 0 else AmbigCellsOf(pt, s, n - 1) + AmbigCells(ActionEntry(pt, s, n - 1))
  }

  ghost predicate ReducedIn(pt: ParseTables, s: nat, p: nat) {
    exists t: nat :: CanReduce(ActionEntry(pt, s, t), p)
  }

  /** Distinct productions that state `s` reduces by. */
  ghost predicate Reductions(pt: ParseTables, s: nat, ps: seq<nat>) {
    (forall i, j :: 0 <= i < j < |ps| ==> ps[i] != ps[j]) && forall p :: p in ps ==> ReducedIn(pt, s, p)
  }

  /** All indexes of state `s` fit in six bits, with or without sharing. */
  ghost predicate StateFits(pt: ParseTables, s: nat, firstWithTerminal: seq<nat>) {
    && (forall t :: 0 <= t < |firstWithTerminal| ==> ShiftInReach(ActionEntry(pt, s, t), firstWithTerminal[t]))
    && (forall ps :: Reductions(pt, s, ps) ==> |ps| <= AE_MAXINDEX + 1)
    && AmbigCellsOf(pt, s, |firstWithTerminal|) <= AE_MAXINDEX + 1
  }

  ghost predicate GotoFits(pt: ParseTables, firstWithNonterminal: seq<nat>, s: nat, b: nat)
    requires b < |firstWithNonterminal|
  {
    (s, b) in pt.goto ==> 0 <= pt.goto[(s, b)] - firstWithNonterminal[b] < ERROR_GOTO
  }

  ghost predicate GotosFit(pt: ParseTables, firstWithNonterminal: seq<nat>) {
    forall s: nat, b: nat :: s < pt.numStates && b < |firstWithNonterminal| ==> GotoFits(pt, firstWithNonterminal, s, b)
  }

  /** What the encoder has listed for state `s` before it gets to terminal `t`. */
  ghost predicate ListedFor(pt: ParseTables, dt: DeltaTables, s: nat, t: nat) {
    Reductions(pt, s, Listed(dt, s)) && AmbigLength(dt, s) <= AmbigCellsOf(pt, s, t)
  }

  lemma {:induction false} AmbigCellsGrow(pt: ParseTables, s: nat, n: nat, m: nat)
    requires n <= m
    ensures AmbigCellsOf(pt, s, n) <= AmbigCellsOf(pt, s, m)
    decreases m
  {
    if n < m {
      AmbigCellsGrow(pt, s, n, m - 1);
    }
  }

  // ---------------------------------------------------------------- one cell

  method EncodeSimple(enc: DeltaEncoder, a: Action, s: nat, t: nat) returns (r: Option<Byte>)
    requires enc.Valid() && (SimpleAction(a) || a == Error) && s < |enc.productionsForState|
    requires t < |enc.firstWithTerminal|
    modifies enc
    ensures enc.Valid() && Extends(old(enc.View()), enc.View()) && OnlyStartsOf(old(enc.View()), enc.View(), s)
    ensures AmbigLength(enc.View(), s) == AmbigLength(old(enc.View()), s)
    ensures var was := Listed(old(enc.View()), s); Listed(enc.View(), s) == if a.Reduce?
              && a.prod !in was then was + [a.prod] else was
    ensures r.Some? ==> DecodeDelta(enc.View(), r.value, s, t) == Some(a)
    ensures r.Some? ==> DeltaSimple(enc.View(), r.value, s, t) == Some(a)
    ensures r.None? ==> !ShiftInReach(a, enc.firstWithTerminal[t]) || |Listed(enc.View(), s)| > AE_MAXINDEX + 1
  {
    match a
    case Shift(dest) => r := enc.EncodeShift(dest, s, t);
    case Reduce(prod) => r := enc.EncodeReduce(prod, s, t);
    case Error => r := enc.EncodeError(s, t);
  }

  /** One more action of a cell. */
  method EncodeAct(pt: ParseTables, enc: DeltaEncoder, a: Action, s: nat, t: nat) returns (r: Option<Byte>)
    requires enc.Valid() && s < |enc.productionsForState| && t < |enc.firstWithTerminal|
    requires (SimpleAction(a) || a == Error)
    requires (a.Reduce? ==> ReducedIn(pt, s, a.prod)) && ListedFor(pt, enc.View(), s, t)
    modifies enc
    ensures enc.Valid() && Extends(old(enc.View()), enc.View()) && OnlyStartsOf(old(enc.View()), enc.View(), s)
    ensures ListedFor(pt, enc.View(), s, t)
    ensures r.Some? ==> DecodeDelta(enc.View(), r.value, s, t) == Some(a)
    ensures r.Some? ==> DeltaSimple(enc.View(), r.value, s, t) == Some(a)
    ensures r.None? ==> !ShiftInReach(a, enc.firstWithTerminal[t]) || |Listed(enc.View(), s)| > AE_MAXINDEX + 1
  {
    r := EncodeSimple(enc, a, s, t);
  }

  /** The cells are those of the first actions of the set. */
  ghost predicate ActsWritten(was: DeltaTables, dt: DeltaTables, acts: seq<Action>, s: nat, t: nat, cells: seq<Byte>) {
    && Extends(was, dt) && OnlyStartsOf(was, dt, s)
    && |cells| <= |acts| && AllSimple(dt, cells, s, t) && SimpleActions(dt, cells, s, t) == acts[..|cells|]
  }

  lemma ActWritten(was: DeltaTables, a: DeltaTables, b: DeltaTables, acts: seq<Action>, s: nat, t: nat,
                   cells: seq<Byte>, cell: Byte)
    requires ActsWritten(was, a, acts, s, t, cells) && |cells| < |acts|
    requires Extends(a, b) && OnlyStartsOf(a, b, s) && DeltaSimple(b, cell, s, t) == Some(acts[|cells|])
    ensures ActsWritten(was, b, acts, s, t, cells + [cell])
  {
    ExtendsTrans(was, a, b);
    SetLater(a, b, cells, s, t);
    assert SimpleActions(b, cells + [cell], s, t) == acts[..|cells|] + [acts[|cells|]];
  }

  /** The cells of a set of ambiguous actions. */
  method EncodeActs(pt: ParseTables, enc: DeltaEncoder, acts: seq<Action>, s: nat, t: nat)
      returns (r: Option<seq<Byte>>)
    requires enc.Valid() && s < |enc.productionsForState| && t < |enc.firstWithTerminal|
    requires WellFormedCell(Ambig(acts)) && ActionEntry(pt, s, t) == Ambig(acts) && ListedFor(pt, enc.View(), s, t)
    modifies enc
    ensures enc.Valid() && Extends(old(enc.View()), enc.View()) && OnlyStartsOf(old(enc.View()), enc.View(), s)
    ensures ListedFor(pt, enc.View(), s, t)
    ensures r.Some? ==> AllSimple(enc.View(), r.value, s, t) && SimpleActions(enc.View(), r.value, s, t) == acts
    ensures r.None? ==>
              !ShiftInReach(Ambig(acts), enc.firstWithTerminal[t]) || |Listed(enc.View(), s)| > AE_MAXINDEX + 1
  {
    var cells: seq<Byte> := [];
    for i := 0 to |acts|
      invariant enc.Valid() && ListedFor(pt, enc.View(), s, t)
      invariant |cells| == i && ActsWritten(old(enc.View()), enc.View(), acts, s, t, cells)
    {
      ghost var before := enc.View();
      ActOfSet(pt, acts, s, t, i);
      var cell := EncodeAct(pt, enc, acts[i], s, t);
      if cell.None? {
        ExtendsTrans(old(enc.View()), before, enc.View());
        return None;
      }
      ActWritten(old(enc.View()), before, enc.View(), acts, s, t, cells, cell.value);
      cells := cells + [cell.value];
    }
    assert acts[..|acts|] == acts;
    r := Some(cells);
  }

  lemma ActOfSet(pt: ParseTables, acts: seq<Action>, s: nat, t: nat, i: nat)
    requires WellFormedCell(Ambig(acts)) && ActionEntry(pt, s, t) == Ambig(acts) && i < |acts|
    ensures SimpleAction(acts[i]) && (acts[i].Reduce? ==> ReducedIn(pt, s, acts[i].prod))
  {
    assert acts[i].Reduce? ==> CanReduce(ActionEntry(pt, s, t), acts[i].prod);
  }

  /** Why a cell cannot be encoded: an index of its state does not fit in six bits. */
  ghost predicate Overflows(pt: ParseTables, dt: DeltaTables, s: nat, t: nat)
    requires t < |dt.firstWithTerminal|
  {
    || !ShiftInReach(ActionEntry(pt, s, t), dt.firstWithTerminal[t])
    || |Listed(dt, s)| > AE_MAXINDEX + 1 || AmbigLength(dt, s) > AE_MAXINDEX + 1
  }

  lemma OverflowMeans(pt: ParseTables, dt: DeltaTables, s: nat, t: nat)
    requires t < |dt.firstWithTerminal| && ListedFor(pt, dt, s, t + 1) && Overflows(pt, dt, s, t)
    ensures !StateFits(pt, s, dt.firstWithTerminal)
  {
    AmbigCellsGrow(pt, s, t + 1, |dt.firstWithTerminal|);
  }

  method EncodeSet(pt: ParseTables, enc: DeltaEncoder, acts: seq<Action>, s: nat, t: nat) returns (r: Option<Byte>)
    requires enc.Valid() && s < |enc.productionsForState| && t < |enc.firstWithTerminal|
    requires WellFormedCell(Ambig(acts)) && ActionEntry(pt, s, t) == Ambig(acts) && ListedFor(pt, enc.View(), s, t)
    modifies enc
    ensures enc.Valid() && Extends(old(enc.View()), enc.View()) && OnlyStartsOf(old(enc.View()), enc.View(), s)
    ensures ListedFor(pt, enc.View(), s, t + 1)
    ensures r.Some? ==> DecodeDelta(enc.View(), r.value, s, t) == Some(Ambig(acts))
    ensures r.None? ==> Overflows(pt, enc.View(), s, t)
  {
    var cells := EncodeActs(pt, enc, acts, s, t);
    if cells.None? {
      return None;
    }
    ghost var before := enc.View();
    CountFits(before, cells.value, s, t, acts);
    r := enc.EncodeAmbig(cells.value, s, t);
    SetLater(before, enc.View(), cells.value, s, t);
    assert Listed(enc.View(), s) == Listed(before, s);
  }

  /** One cell: a single action, or a set of ambiguous actions, shared or new. */
  method EncodeCell(pt: ParseTables, enc: DeltaEncoder, s: nat, t: nat) returns (r: Option<Byte>)
    requires enc.Valid() && s < |enc.productionsForState| && t < |enc.firstWithTerminal|
    requires ListedFor(pt, enc.View(), s, t)
    requires WellFormedCell(ActionEntry(pt, s, t))
    modifies enc
    ensures enc.Valid() && Extends(old(enc.View()), enc.View()) && OnlyStartsOf(old(enc.View()), enc.View(), s)
    ensures ListedFor(pt, enc.View(), s, t + 1)
    ensures r.Some? ==> DecodeDelta(enc.View(), r.value, s, t) == Some(ActionEntry(pt, s, t))
    ensures r.None? ==> !StateFits(pt, s, enc.firstWithTerminal)
  {
    var a := ActionEntry(pt, s, t);
    if a.Ambig? {
      r := EncodeSet(pt, enc, a.acts, s, t);
    } else {
      assert a.Reduce? ==> CanReduce(a, a.prod);
      r := EncodeAct(pt, enc, a, s, t);
      assert ListedFor(pt, enc.View(), s, t + 1);
    }
    if r.None? {
      OverflowMeans(pt, enc.View(), s, t);
    }
  }

  lemma SetLater(a: DeltaTables, b: DeltaTables, cells: seq<Byte>, s: nat, t: nat)
    requires Extends(a, b) && AllSimple(a, cells, s, t)
    ensures AllSimple(b, cells, s, t) && SimpleActions(b, cells, s, t) == SimpleActions(a, cells, s, t)
  {
    forall i | 0 <= i < |cells| ensures DeltaSimple(b, cells[i], s, t) == DeltaSimple(a, cells[i], s, t) {
      SimpleLasts(a, b, cells[i], s, t);
    }
  }

  // ---------------------------------------------------------------- whole tables

  /** The rows below `n`, and row `n` below column `k`, read as the actions of the tables. */
  ghost predicate CellsRead(pt: ParseTables, dt: DeltaTables, table: array2<int>, n: nat, k: nat)
    reads table
  {
    forall s: nat, t: nat :: s < table.Length0 && t < table.Length1 && (s < n || (s == n && t < k)) ==>
      ReadsAs(dt, table[s, t], s, t, ActionEntry(pt, s, t))
  }

  lemma CellsReadLater(pt: ParseTables, a: DeltaTables, b: DeltaTables, table: array2<int>, n: nat, k: nat)
    requires CellsRead(pt, a, table, n, k) && Extends(a, b)
    ensures CellsRead(pt, b, table, n, k)
  {
    forall s: nat, t: nat | s < table.Length0 && t < table.Length1 && (s < n || (s == n && t < k))
      ensures ReadsAs(b, table[s, t], s, t, ActionEntry(pt, s, t))
    {
      ReadsLater(a, b, table[s, t], s, t, ActionEntry(pt, s, t));
    }
  }

  ghost predicate Encodable(pt: ParseTables) {
    forall s: nat, t: nat :: WellFormedCell(ActionEntry(pt, s, t))
  }

  /** Fill in one cell; those before it are left alone. */
  method WriteCell(ghost pt: ParseTables, ghost dt: DeltaTables, table: array2<int>, s: nat, t: nat, code: int)
    requires s < table.Length0 && t < table.Length1 && CellsRead(pt, dt, table, s, t)
    requires ReadsAs(dt, code, s, t, ActionEntry(pt, s, t))
    modifies table
    ensures CellsRead(pt, dt, table, s, t + 1)
  {
    table[s, t] := code;
  }

  /** Encode one cell. The encoder keeps adding to its side tables, yet all earlier cells stay readable. */
  method EncodeNext(pt: ParseTables, enc: DeltaEncoder, table: array2<int>, s: nat, t: nat) returns (ok: bool)
    requires enc.Valid() && WellFormedCell(ActionEntry(pt, s, t)) && |enc.productionsForState| == table.Length0
    requires |enc.firstWithTerminal| == table.Length1 && CellsRead(pt, enc.View(), table, s, t)
    requires s < table.Length0 && t < table.Length1 && Untouched(enc.View(), s + 1) && ListedFor(pt, enc.View(), s, t)
    modifies enc, table
    ensures enc.Valid() && |enc.productionsForState| == table.Length0 && Untouched(enc.View(), s + 1)
    ensures ok ==> CellsRead(pt, enc.View(), table, s, t + 1) && ListedFor(pt, enc.View(), s, t + 1)
    ensures !ok ==> !StateFits(pt, s, enc.firstWithTerminal)
  {
    ghost var before := enc.View();
    var cell := EncodeCell(pt, enc, s, t);
    StillUntouched(before, enc.View(), s);
    if cell.None? {
      return false;
    }
    CellsReadLater(pt, before, enc.View(), table, s, t);
    WriteCell(pt, enc.View(), table, s, t, cell.value);
    ok := true;
  }

  method EncodeRow(pt: ParseTables, enc: DeltaEncoder, table: array2<int>, s: nat) returns (ok: bool)
    requires enc.Valid() && Encodable(pt) && s < table.Length0 && |enc.productionsForState| == table.Length0
    requires |enc.firstWithTerminal| == table.Length1 && CellsRead(pt, enc.View(), table, s, 0)
    requires Untouched(enc.View(), s)
    modifies enc, table
    ensures enc.Valid() && |enc.productionsForState| == table.Length0 && Untouched(enc.View(), s + 1)
    ensures ok ==> CellsRead(pt, enc.View(), table, s + 1, 0)
    ensures StateFits(pt, s, enc.firstWithTerminal) ==> ok
  {
    for t := 0 to table.Length1
      invariant enc.Valid() && |enc.productionsForState| == table.Length0 && CellsRead(pt, enc.View(), table, s, t)
      invariant Untouched(enc.View(), s + 1) && ListedFor(pt, enc.View(), s, t)
    {
      ok := EncodeNext(pt, enc, table, s, t);
      if !ok {
        return;
      }
    }
    ok := true;
  }

  lemma StillUntouched(a: DeltaTables, b: DeltaTables, s: nat)
    requires Untouched(a, s + 1) && OnlyStartsOf(a, b, s)
    ensures Untouched(b, s + 1)
  {
  }

  method EncodeActions(pt: ParseTables, enc: DeltaEncoder) returns (ok: bool, table: array2<int>)
    requires enc.Valid() && Encodable(pt) && |enc.productionsForState| == pt.numStates && Untouched(enc.View(), 0)
    modifies enc
    ensures enc.Valid() && fresh(table) && table.Length0 == pt.numStates && table.Length1 == |enc.firstWithTerminal|
    ensures ok ==> CellsRead(pt, enc.View(), table, pt.numStates, 0)
    ensures (forall s: nat :: s < pt.numStates ==> StateFits(pt, s, enc.firstWithTerminal)) ==> ok
  {
    table := new int[pt.numStates, |enc.firstWithTerminal|]((i, j) => 0);
    for s := 0 to pt.numStates
      invariant enc.Valid() && |enc.productionsForState| == pt.numStates && CellsRead(pt, enc.View(), table, s, 0)
      invariant Untouched(enc.View(), s)
    {
      ok := EncodeRow(pt, enc, table, s);
      if !ok {
        return;
      }
    }
    ok := true;
  }

  ghost predicate GotoReads(pt: ParseTables, firstWithNonterminal: seq<nat>, table: array2<int>, s: nat, b: nat)
    requires s < table.Length0 && b < table.Length1 == |firstWithNonterminal|
    reads table
  {
    (s, b) in pt.goto ==>
      0 <= table[s, b] != ERROR_GOTO && DecodeGoto(firstWithNonterminal, table[s, b], b) == pt.goto[(s, b)]
  }

  ghost predicate GotosRead(pt: ParseTables, firstWithNonterminal: seq<nat>, table: array2<int>, n: nat, k: nat)
    requires table.Length1 == |firstWithNonterminal|
    reads table
  {
    forall s: nat, b: nat :: s < table.Length0 && b < table.Length1 && (s < n || (s == n && b < k)) ==>
      GotoReads(pt, firstWithNonterminal, table, s, b)
  }

  method EncodeGotos(pt: ParseTables, firstWithNonterminal: seq<nat>) returns (ok: bool, table: array2<int>)
    ensures fresh(table) && table.Length0 == pt.numStates && table.Length1 == |firstWithNonterminal|
    ensures ok ==> GotosRead(pt, firstWithNonterminal, table, pt.numStates, 0)
    ensures GotosFit(pt, firstWithNonterminal) ==> ok
  {
    table := new int[pt.numStates, |firstWithNonterminal|]((i, j) => ERROR_GOTO);
    for s := 0 to pt.numStates
      invariant GotosRead(pt, firstWithNonterminal, table, s, 0)
    {
      ok := EncodeGotoRow(pt, firstWithNonterminal, table, s);
      if !ok {
        return;
      }
    }
    ok := true;
  }

  method EncodeGotoRow(pt: ParseTables, firstWithNonterminal: seq<nat>, table: array2<int>, s: nat) returns (ok: bool)
    requires s < table.Length0 && table.Length1 == |firstWithNonterminal|
    requires GotosRead(pt, firstWithNonterminal, table, s, 0)
    modifies table
    ensures ok ==> GotosRead(pt, firstWithNonterminal, table, s + 1, 0)
    ensures !ok ==> exists b: nat :: b < |firstWithNonterminal| && !GotoFits(pt, firstWithNonterminal, s, b)
  {
    for nt := 0 to table.Length1
      invariant GotosRead(pt, firstWithNonterminal, table, s, nt)
    {
      if (s, nt) in pt.goto {
        var cell := EncodeGoto(firstWithNonterminal, pt.goto[(s, nt)], nt);
        if cell.None? {
          assert !GotoFits(pt, firstWithNonterminal, s, nt);
          return false;
        }
        label Before:
        table[s, nt] := cell.value;
        forall r: nat, b: nat | r < table.Length0 && b < table.Length1 && (r < s || (r == s && b < nt + 1))
          ensures GotoReads(pt, firstWithNonterminal, table, r, b)
        {
          assert (r, b) != (s, nt) ==> old@Before(GotoReads(pt, firstWithNonterminal, table, r, b));
        }
      }
    }
    ok := true;
  }

  /** There is a number for every row, column, offset and index. */
  ghost predicate EverythingFits(pt: ParseTables, firstWithTerminal: seq<nat>, firstWithNonterminal: seq<nat>) {
    && |firstWithTerminal| <= TERM_LIMIT && |firstWithNonterminal| <= NONTERM_LIMIT
    && (forall s: nat :: s < pt.numStates ==> StateFits(pt, s, firstWithTerminal))
    && GotosFit(pt, firstWithNonterminal)
  }

  /** The plain tables read as the actions and gotos, and the compressed tables hold the plain ones. */
  ghost predicate Packed(pt: ParseTables, firstWithNonterminal: seq<nat>, dt: DeltaTables, tables: CompressedTables,
                         action: array2<int>, goto: array2<int>)
    reads action, goto, tables.errorBits, tables.errorBitsPointers
    reads tables.actionTable, tables.actionIndexMap, tables.actionRowPointers
    reads tables.gotoTable, tables.gotoIndexMap, tables.gotoRowPointers
  {
    && tables.errorAction == AE_ERROR && tables.Agrees(action, goto, ERROR_GOTO)
    && action.Length0 == pt.numStates && goto.Length1 == |firstWithNonterminal|
    && CellsRead(pt, dt, action, pt.numStates, 0) && GotosRead(pt, firstWithNonterminal, goto, pt.numStates, 0)
  }

  /** Look up a cell and decode it, as the parser does: it finds the action the tables were made from. */
  method LookUpAction(dt: DeltaTables, tables: CompressedTables, s: nat, t: nat, ghost pt: ParseTables,
                      ghost firstWithNonterminal: seq<nat>, ghost action: array2<int>, ghost goto: array2<int>)
      returns (a: Action)
    requires Packed(pt, firstWithNonterminal, dt, tables, action, goto) && s < action.Length0 && t < action.Length1
    ensures a == ActionEntry(pt, s, t)
  {
    var code := tables.GetActionEntry(s, t, action, goto, ERROR_GOTO);
    assert ReadsAs(dt, action[s, t], s, t, ActionEntry(pt, s, t));
    a := DecodeDelta(dt, code, s, t).value;
  }

  /** So it does for a goto. */
  method LookUpGoto(firstWithNonterminal: seq<nat>, tables: CompressedTables, s: nat, b: nat, ghost pt: ParseTables,
                    ghost dt: DeltaTables, ghost action: array2<int>, ghost goto: array2<int>)
      returns (dest: nat)
    requires Packed(pt, firstWithNonterminal, dt, tables, action, goto) && s < goto.Length0 && b < goto.Length1
    requires (s, b) in pt.goto
    ensures dest == pt.goto[(s, b)]
  {
    assert GotoReads(pt, firstWithNonterminal, goto, s, b);
    var code := tables.GetGotoEntry(s, b, action, goto, ERROR_GOTO);
    dest := DecodeGoto(firstWithNonterminal, code, b);
  }

  /** Encode every cell, finish the side tables, compress. If it all fits, each query followed by
      decoding gives back the action, and each goto that is ever asked for. */
  method PackTables(pt: ParseTables, firstWithTerminal: seq<nat>, firstWithNonterminal: seq<nat>)
      returns (ok: bool, dt: DeltaTables, tables: CompressedTables, ghost plainAction: array2<int>,
               ghost plainGoto: array2<int>)
    requires Encodable(pt)
    ensures ok ==> Packed(pt, firstWithNonterminal, dt, tables, plainAction, plainGoto)
    ensures ok ==> plainAction.Length1 == |firstWithTerminal|
    ensures ok ==> tables.Valid(pt.numStates, |firstWithTerminal|, |firstWithNonterminal|)
    ensures ok ==> forall s: nat, t: nat :: s < pt.numStates && t < |firstWithTerminal| ==>
              ReadsAs(dt, tables.ActionAt(s, t), s, t, ActionEntry(pt, s, t))
    ensures ok ==> forall s: nat, b: nat :: s < pt.numStates && b < |firstWithNonterminal| && (s, b) in pt.goto ==>
              0 <= tables.GotoAt(s, b) && DecodeGoto(firstWithNonterminal, tables.GotoAt(s, b), b) == pt.goto[(s, b)]
    ensures EverythingFits(pt, firstWithTerminal, firstWithNonterminal) ==> ok
  {
    var enc := new DeltaEncoder(pt.numStates, firstWithTerminal);
    var ok1, action := EncodeActions(pt, enc);
    dt := enc.FinishTables();
    var ok2, goto := EncodeGotos(pt, firstWithNonterminal);
    var ok3;
    ok3, tables := Compress(action, AE_ERROR, goto, ERROR_GOTO);
    ok := ok1 && ok2 && ok3;
    plainAction, plainGoto := action, goto;
    if ok {
      tables.QueriesAgree(action, goto, ERROR_GOTO);
      forall s: nat, b: nat | s < pt.numStates && b < |firstWithNonterminal| && (s, b) in pt.goto
        ensures 0 <= tables.GotoAt(s, b) && DecodeGoto(firstWithNonterminal, tables.GotoAt(s, b), b) == pt.goto[(s, b)]
      {
        assert GotoReads(pt, firstWithNonterminal, goto, s, b);
      }
    }
  }
}
