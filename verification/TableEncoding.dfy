/** Encoding actions in table cells: the plain scheme, and the scheme of offsets into per-state lists. */
module TableEncoding {
  import opened Grammars
  import opened LrMachine
  import opened FiniteSets

  const UNASSIGNED := -1

  // ---------------------------------------------------------------- plain cells

  /** A cell is a 16-bit number: 0 an error, +N+1 a shift to N, -N-1 a reduction by N, and beyond the
      shifts an index into the table of ambiguous actions, where a count is followed by cells. */
  datatype PlainTables = PlainTables(numStates: nat, ambigTable: seq<int>)

  predicate FitsPlain(code: int) {
    -32768 <= code < 32768
  }

  function PlainSimple(code: int): Action {
    if code == 0 then Error else if code < 0 then Reduce(-(code + 1)) else Shift(code - 1)
  }

  predicate PlainAmbigAt(pt: PlainTables, at: nat) {
    at < |pt.ambigTable| && pt.ambigTable[at] >= 0 && at + pt.ambigTable[at] < |pt.ambigTable|
  }

  /** What the parser reads in a cell. */
  function DecodePlain(pt: PlainTables, code: int): Action {
    if code <= pt.numStates then PlainSimple(code)
    else var at := code - 1 - pt.numStates;
      if PlainAmbigAt(pt, at) then Ambig(PlainSet(pt.ambigTable[at + 1..at + 1 + pt.ambigTable[at]])) else Error
  }

  function PlainSet(cells: seq<int>): seq<Action> {
    seq(|cells|, i requires 0 <= i < |cells| => PlainSimple(cells[i]))
  }

  /** The cell does not point beyond the table. */
  predicate PlainResolves(pt: PlainTables, code: int) {
    code > pt.numStates ==> PlainAmbigAt(pt, code - 1 - pt.numStates)
  }

  /** The number for one action. */
  ghost predicate WritesSimple(a: Action, code: int) {
    match a
    case Error => code == 0
    case Shift(dest) => code == dest + 1
    case Reduce(prod) => code == -1 - prod
    case Ambig(_) => false
  }

  /** What the encoder writes for an action: shifts stay within the states, sets come after them. */
  ghost predicate WritesPlain(pt: PlainTables, a: Action, code: int) {
    match a
    case Ambig(acts) =>
      && code > pt.numStates && PlainAmbigAt(pt, code - 1 - pt.numStates)
      && var at := code - 1 - pt.numStates;
         |acts| == pt.ambigTable[at] && forall i :: 0 <= i < |acts| ==> WritesSimple(acts[i], pt.ambigTable[at + 1 + i])
    case _ => WritesSimple(a, code) && code <= pt.numStates
  }

  /** The parser reads a cell as an action exactly if the encoder writes the cell for it. */
  lemma ReadsWhatIsWritten(pt: PlainTables, a: Action, code: int)
    ensures WritesPlain(pt, a, code) <==> PlainResolves(pt, code) && DecodePlain(pt, code) == a
  {
    if code > pt.numStates && PlainAmbigAt(pt, code - 1 - pt.numStates) && a.Ambig? {
      var at := code - 1 - pt.numStates;
      var cells := pt.ambigTable[at + 1..at + 1 + pt.ambigTable[at]];
      forall i | 0 <= i < |cells| ensures cells[i] == pt.ambigTable[at + 1 + i] {
      }
      if WritesPlain(pt, a, code) {
        assert PlainSet(cells) == a.acts;
      } else if |a.acts| == |cells| {
        var i :| 0 <= i < |a.acts| && !WritesSimple(a.acts[i], pt.ambigTable[at + 1 + i]);
        assert PlainSimple(cells[i]) != a.acts[i];
        assert PlainSet(cells)[i] != a.acts[i];
      }
    }
  }

  /** Different actions never share a cell, and but for sets an action has only one. */
  lemma PlainCodesDiffer(pt: PlainTables, a: Action, b: Action, x: int, y: int)
    requires WritesPlain(pt, a, x) && WritesPlain(pt, b, y)
    ensures a != b ==> x != y
    ensures a == b && !a.Ambig? ==> x == y
  {
    ReadsWhatIsWritten(pt, a, x);
    ReadsWhatIsWritten(pt, b, y);
  }

  /** Later additions to the table of ambiguous actions do not change what a cell means. */
  lemma PlainCellsLast(pt: PlainTables, more: seq<int>, code: int)
    requires PlainResolves(pt, code)
    ensures var pt' := pt.(ambigTable := pt.ambigTable + more);
            PlainResolves(pt', code) && DecodePlain(pt', code) == DecodePlain(pt, code)
  {
    if code > pt.numStates {
      var at := code - 1 - pt.numStates;
      var n := pt.ambigTable[at];
      assert (pt.ambigTable + more)[at + 1..at + 1 + n] == pt.ambigTable[at + 1..at + 1 + n];
    }
  }

  class PlainEncoder {
    const numStates: nat
    var ambigTable: seq<int>

    constructor (numStates: nat)
      ensures this.numStates == numStates && ambigTable == []
    {
      this.numStates := numStates;
      ambigTable := [];
    }

    ghost function View(): PlainTables
      reads this
    {
      PlainTables(numStates, ambigTable)
    }

    /** Fails if the number does not fit in a cell. */
    method ValidateAction(code: int) returns (r: Option<int>)
      ensures r == if FitsPlain(code) then Some(code) else None
    {
      r := if FitsPlain(code) then Some(code) else None;
    }

    method EncodeShift(destState: nat) returns (r: Option<int>)
      requires destState < numStates
      ensures r.Some? ==> PlainResolves(View(), r.value) && DecodePlain(View(), r.value) == Shift(destState)
      ensures r.Some? ==> WritesPlain(View(), Shift(destState), r.value)
      ensures r.None? ==> destState + 1 >= 32768
    {
      r := ValidateAction(destState + 1);
    }

    method EncodeReduce(prodId: nat) returns (r: Option<int>)
      ensures r.Some? ==> PlainResolves(View(), r.value) && DecodePlain(View(), r.value) == Reduce(prodId)
      ensures r.Some? ==> WritesPlain(View(), Reduce(prodId), r.value)
      ensures r.None? ==> prodId >= 32768
    {
      r := ValidateAction(-(prodId as int) - 1);
    }

    method EncodeError() returns (r: Option<int>)
      ensures r.Some? && PlainResolves(View(), r.value) && DecodePlain(View(), r.value) == Error
      ensures WritesPlain(View(), Error, r.value)
    {
      r := ValidateAction(0);
    }

    /** Append a set of encoded actions; every cell encoded before keeps its meaning. */
    method EncodeAmbig(set': seq<int>) returns (r: Option<int>)
      modifies this
      ensures ambigTable == old(ambigTable) + [|set'|] + set'
      ensures r.Some? ==> PlainResolves(View(), r.value) && DecodePlain(View(), r.value) == Ambig(PlainSet(set'))
      ensures r.Some? ==> WritesPlain(View(), Ambig(PlainSet(set')), r.value)
      ensures r.None? ==> numStates + |old(ambigTable)| + 1 >= 32768
      ensures forall code :: PlainResolves(old(View()), code) ==>
                PlainResolves(View(), code) && DecodePlain(View(), code) == DecodePlain(old(View()), code)
    {
      ghost var before := View();
      var end := |ambigTable|;
      ambigTable := ambigTable + [|set'|] + set';
      assert ambigTable == before.ambigTable + ([|set'|] + set');
      forall code | PlainResolves(before, code)
        ensures PlainResolves(View(), code) && DecodePlain(View(), code) == DecodePlain(before, code)
      {
        PlainCellsLast(before, [|set'|] + set', code);
      }
      assert ambigTable[end] == |set'| && ambigTable[end + 1..end + 1 + |set'|] == set';
      r := ValidateAction(numStates + end + 1);
    }
  }

  // ---------------------------------------------------------------- delta cells

  /** A cell is a byte: two high bits of kind and a six-bit index. */
  type Byte = b: nat | b < 256

  const AE_SHIFT: Byte := 0x00
  const AE_REDUCE: Byte := 0x40
  const AE_AMBIGUOUS: Byte := 0x80
  const AE_ERROR: Byte := 0xC0
  const AE_MAXINDEX: nat := 63

  /** The two high bits. */
  function Kind(code: Byte): Byte {
    code / 64 * 64
  }

  /** The six low bits. */
  function Index(code: Byte): nat {
    code % 64
  }

  predicate IsKind(k: Byte) {
    k == AE_SHIFT || k == AE_REDUCE || k == AE_AMBIGUOUS || k == AE_ERROR
  }

  /** Kind and index, which have no bits in common; fails if the index does not fit in six bits. */
  method MakeAE(k: Byte, index: int) returns (r: Option<Byte>)
    requires IsKind(k)
    ensures r.Some? <==> 0 <= index <= AE_MAXINDEX
    ensures r.Some? ==> Kind(r.value) == k && Index(r.value) == index
  {
    r := if 0 <= index <= AE_MAXINDEX then Some(k + index) else None;
  }

  /** Shifts count from the first state of the terminal, reductions and ambiguous actions from the
      start of the list of the state they are in. */
  datatype DeltaTables = DeltaTables(
    firstWithTerminal: seq<nat>,
    bigProductionList: seq<nat>,
    productionsForState: seq<Option<nat>>,
    ambigTable: seq<Byte>,
    ambigStateTable: seq<Option<nat>>)

  function ProductionAt(dt: DeltaTables, s: nat, index: nat): Option<nat> {
    if s < |dt.productionsForState| && dt.productionsForState[s].Some?
       && dt.productionsForState[s].value + index < |dt.bigProductionList|
    then Some(dt.bigProductionList[dt.productionsForState[s].value + index]) else None
  }

  function DeltaSimple(dt: DeltaTables, code: Byte, s: nat, t: nat): Option<Action> {
    if Kind(code) == AE_SHIFT then
      if t < |dt.firstWithTerminal| then Some(Shift(dt.firstWithTerminal[t] + Index(code))) else None
    else if Kind(code) == AE_REDUCE then
      match ProductionAt(dt, s, Index(code))
      case Some(p) => Some(Reduce(p))
      case None => None
    else if code == AE_ERROR then Some(Error)
    else None
  }

  /** The cells of the set that starts at position `at`: a count, then that many cells. */
  function SetAt(dt: DeltaTables, at: nat): Option<seq<Byte>> {
    if at < |dt.ambigTable| && at + dt.ambigTable[at] < |dt.ambigTable|
    then Some(dt.ambigTable[at + 1..at + 1 + dt.ambigTable[at]]) else None
  }

  predicate AllSimple(dt: DeltaTables, cells: seq<Byte>, s: nat, t: nat) {
    forall i :: 0 <= i < |cells| ==> DeltaSimple(dt, cells[i], s, t).Some?
  }

  function SimpleActions(dt: DeltaTables, cells: seq<Byte>, s: nat, t: nat): seq<Action>
    requires AllSimple(dt, cells, s, t)
  {
    seq(|cells|, i requires 0 <= i < |cells| => DeltaSimple(dt, cells[i], s, t).value)
  }

  ghost predicate DistinctCells(cells: seq<Byte>) {
    forall i, j :: 0 <= i < j < |cells| ==> cells[i] != cells[j]
  }

  lemma {:induction false} CellSet(cells: seq<Byte>) returns (all: set<nat>)
    requires DistinctCells(cells)
    ensures |all| == |cells| && forall c: nat :: c in all <==> exists i :: 0 <= i < |cells| && cells[i] == c
  {
    if cells == [] {
      all := {};
    } else {
      var last: nat := cells[|cells| - 1];
      var rest := CellSet(cells[..|cells| - 1]);
      assert last !in rest;
      all := rest + {last};
    }
  }

  /** A set of actions has no room for more than 129 cells: two kinds with 64 indexes each, and the error. */
  lemma FewCells(dt: DeltaTables, cells: seq<Byte>, s: nat, t: nat)
    requires AllSimple(dt, cells, s, t) && DistinctCells(cells)
    ensures |cells| <= 2 * (AE_MAXINDEX + 1) + 1
  {
    var all := CellSet(cells);
    NatsBelowSize(AE_AMBIGUOUS);
    var room := NatsBelow(AE_AMBIGUOUS) + {AE_ERROR};
    forall c: nat | c in all ensures c in room {
      var i :| 0 <= i < |cells| && cells[i] == c;
      assert DeltaSimple(dt, cells[i], s, t).Some?;
    }
    SubsetSize(all, room);
  }

  /** Cells of distinct actions are distinct, so their count always fits in a byte. */
  lemma CountFits(dt: DeltaTables, cells: seq<Byte>, s: nat, t: nat, acts: seq<Action>)
    requires AllSimple(dt, cells, s, t) && SimpleActions(dt, cells, s, t) == acts && WellFormedCell(Ambig(acts))
    ensures DistinctCells(cells) && |acts| <= 2 * (AE_MAXINDEX + 1) + 1 <= 255
  {
    forall i, j | 0 <= i < j < |cells| ensures cells[i] != cells[j] {
      assert SimpleActions(dt, cells, s, t)[i] == acts[i] && SimpleActions(dt, cells, s, t)[j] == acts[j];
    }
    FewCells(dt, cells, s, t);
  }

  /** What the parser reads in a cell of state `s` under terminal `t`, if the cell points into the tables. */
  function DecodeDelta(dt: DeltaTables, code: Byte, s: nat, t: nat): Option<Action> {
    if Kind(code) == AE_AMBIGUOUS then
      if s < |dt.ambigStateTable| && dt.ambigStateTable[s].Some? then
        match SetAt(dt, dt.ambigStateTable[s].value + Index(code))
        case Some(cells) => if AllSimple(dt, cells, s, t) then Some(Ambig(SimpleActions(dt, cells, s, t))) else None
        case None => None
      else None
    else DeltaSimple(dt, code, s, t)
  }

  /** The side tables only grow, and a state keeps the start of its list once it has one. */
  ghost predicate Extends(a: DeltaTables, b: DeltaTables) {
    && a.firstWithTerminal == b.firstWithTerminal
    && a.bigProductionList <= b.bigProductionList && a.ambigTable <= b.ambigTable
    && StartsKept(a.productionsForState, b.productionsForState) && StartsKept(a.ambigStateTable, b.ambigStateTable)
  }

  ghost predicate StartsKept(a: seq<Option<nat>>, b: seq<Option<nat>>) {
    |a| == |b| && forall s :: 0 <= s < |a| && a[s].Some? ==> b[s] == a[s]
  }

  /** The productions that state `s` can name, from the start of its list on. */
  ghost function Listed(dt: DeltaTables, s: nat): seq<nat> {
    if s < |dt.productionsForState| && dt.productionsForState[s].Some?
      && dt.productionsForState[s].value <= |dt.bigProductionList|
    then dt.bigProductionList[dt.productionsForState[s].value..] else []
  }

  /** How far the sets of state `s` stretch, from the start of its list on. */
  ghost function AmbigLength(dt: DeltaTables, s: nat): nat {
    if s < |dt.ambigStateTable| && dt.ambigStateTable[s].Some? && dt.ambigStateTable[s].value <= |dt.ambigTable|
    then |dt.ambigTable| - dt.ambigStateTable[s].value else 0
  }

  /** Some position of the list of state `s` reads as this set, wherever it was appended. */
  ghost predicate HoldsSet(dt: DeltaTables, s: nat, set': seq<Byte>) {
    s < |dt.ambigStateTable| && dt.ambigStateTable[s].Some?
    && exists at: nat :: dt.ambigStateTable[s].value <= at && SetAt(dt, at) == Some(set')
  }

  /** Nothing has been listed for the states from `s` on. */
  ghost predicate Untouched(dt: DeltaTables, s: nat) {
    && (forall u :: s <= u < |dt.productionsForState| ==> dt.productionsForState[u].None?)
    && (forall u :: s <= u < |dt.ambigStateTable| ==> dt.ambigStateTable[u].None?)
  }

  /** Only the starts of the lists of state `s` may differ. */
  ghost predicate OnlyStartsOf(a: DeltaTables, b: DeltaTables, s: nat) {
    && |a.productionsForState| == |b.productionsForState| && |a.ambigStateTable| == |b.ambigStateTable|
    && (forall u :: 0 <= u < |a.productionsForState| && u != s ==> b.productionsForState[u] == a.productionsForState[u])
    && (forall u :: 0 <= u < |a.ambigStateTable| && u != s ==> b.ambigStateTable[u] == a.ambigStateTable[u])
  }

  lemma SimpleLasts(a: DeltaTables, b: DeltaTables, code: Byte, s: nat, t: nat)
    requires Extends(a, b) && DeltaSimple(a, code, s, t).Some?
    ensures DeltaSimple(b, code, s, t) == DeltaSimple(a, code, s, t)
  {
  }

  lemma SetLasts(a: DeltaTables, b: DeltaTables, at: nat)
    requires a.ambigTable <= b.ambigTable && SetAt(a, at).Some?
    ensures SetAt(b, at) == SetAt(a, at)
  {
    var n := a.ambigTable[at];
    assert a.ambigTable[at + 1..at + 1 + n] == b.ambigTable[at + 1..at + 1 + n];
  }

  /** Later encodings do not change what a cell means. */
  lemma DeltaCellsLast(a: DeltaTables, b: DeltaTables, code: Byte, s: nat, t: nat)
    requires Extends(a, b) && DecodeDelta(a, code, s, t).Some?
    ensures DecodeDelta(b, code, s, t) == DecodeDelta(a, code, s, t)
  {
    if Kind(code) == AE_AMBIGUOUS {
      var at := a.ambigStateTable[s].value + Index(code);
      var cells := SetAt(a, at).value;
      SetLasts(a, b, at);
      forall i | 0 <= i < |cells| ensures DeltaSimple(b, cells[i], s, t) == DeltaSimple(a, cells[i], s, t) {
        SimpleLasts(a, b, cells[i], s, t);
      }
      assert SimpleActions(b, cells, s, t) == SimpleActions(a, cells, s, t);
    } else {
      SimpleLasts(a, b, code, s, t);
    }
  }

  lemma ExtendsTrans(a: DeltaTables, b: DeltaTables, c: DeltaTables)
    requires Extends(a, b) && Extends(b, c)
    ensures Extends(a, c)
  {
  }

  /** An offset that was never assigned becomes no pointer at all. */
  function Pointers(src: seq<int>): seq<Option<nat>> {
    seq(|src|, i requires 0 <= i < |src| => if src[i] >= 0 then Some(src[i]) else None)
  }

  method CopyIndexPtrArray(src: seq<int>) returns (dest: seq<Option<nat>>)
    requires forall i :: 0 <= i < |src| ==> src[i] >= UNASSIGNED
    ensures dest == Pointers(src)
  {
    dest := [];
    for i := 0 to |src|
      invariant dest == Pointers(src)[..i]
    {
      dest := dest + [if src[i] != UNASSIGNED then Some(src[i]) else None];
    }
  }

  /** The count in front of a set, cut to a byte. */
  function CountByte(n: nat): Byte {
    n % 256
  }

  class DeltaEncoder {
    const firstWithTerminal: seq<nat>
    var bigProductionList: seq<nat>
    var productionsForState: seq<int>
    var ambigTable: seq<Byte>
    var ambigStateTable: seq<int>

    constructor (numStates: nat, firstWithTerminal: seq<nat>)
      ensures this.firstWithTerminal == firstWithTerminal && Valid()
      ensures |productionsForState| == |ambigStateTable| == numStates && Untouched(View(), 0)
    {
      this.firstWithTerminal := firstWithTerminal;
      bigProductionList, ambigTable := [], [];
      productionsForState := seq(numStates, _ => UNASSIGNED);
      ambigStateTable := seq(numStates, _ => UNASSIGNED);
    }

    /** The tables as they would be if finished now. */
    ghost function View(): DeltaTables
      reads this
    {
      DeltaTables(firstWithTerminal, bigProductionList, Pointers(productionsForState), ambigTable,
                  Pointers(ambigStateTable))
    }

    /** Turn the offsets into pointers. */
    method FinishTables() returns (dt: DeltaTables)
      requires Valid()
      ensures dt == View()
    {
      var prods := CopyIndexPtrArray(productionsForState);
      var ambigs := CopyIndexPtrArray(ambigStateTable);
      dt := DeltaTables(firstWithTerminal, bigProductionList, prods, ambigTable, ambigs);
    }

    ghost predicate Valid()
      reads this
    {
      && |productionsForState| == |ambigStateTable|
      && (forall s :: 0 <= s < |productionsForState| ==> UNASSIGNED <= productionsForState[s] <= |bigProductionList|)
      && (forall s :: 0 <= s < |ambigStateTable| ==> UNASSIGNED <= ambigStateTable[s] <= |ambigTable|)
    }

    method EncodeShift(destState: nat, s: nat, shiftedTermId: nat) returns (r: Option<Byte>)
      requires shiftedTermId < |firstWithTerminal|
      ensures r.Some? ==> DecodeDelta(View(), r.value, s, shiftedTermId) == Some(Shift(destState))
      ensures r.Some? <==> 0 <= destState - firstWithTerminal[shiftedTermId] <= AE_MAXINDEX
    {
      r := MakeAE(AE_SHIFT, destState - firstWithTerminal[shiftedTermId]);
    }

    method EncodeError(s: nat, t: nat) returns (r: Option<Byte>)
      ensures r == Some(AE_ERROR) && DecodeDelta(View(), r.value, s, t) == Some(Error)
    {
      r := MakeAE(AE_ERROR, 0);
    }

    /** Use an offset at which the production already stands, or append it; fails if the list is too long. */
    method EncodeReduce(prodId: nat, s: nat, ghost t: nat) returns (r: Option<Byte>)
      requires Valid() && s < |productionsForState|
      modifies this`bigProductionList, this`productionsForState
      ensures Valid() && Extends(old(View()), View()) && OnlyStartsOf(old(View()), View(), s)
      ensures var was := Listed(old(View()), s); Listed(View(), s) == if prodId in was then was else was + [prodId]
      ensures r.Some? ==> DecodeDelta(View(), r.value, s, t) == Some(Reduce(prodId))
      ensures r.None? ==> |Listed(View(), s)| > AE_MAXINDEX + 1
    {
      var begin, end := productionsForState[s], |bigProductionList|;
      if begin == UNASSIGNED {
        begin := end;
        productionsForState := productionsForState[s := end];
        assert Pointers(productionsForState) == Pointers(old(productionsForState))[s := Some(end)];
      } else {
        var at := FindProduction(prodId, begin);
        if at.Some? {
          assert Listed(View(), s)[at.value - begin] == prodId;
          r := MakeAE(AE_REDUCE, at.value - begin);
          return;
        }
      }
      bigProductionList := bigProductionList + [prodId];
      ProductionAppended(old(View()), View(), s, prodId);
      r := MakeAE(AE_REDUCE, end - begin);
    }

    method FindProduction(prodId: nat, begin: nat) returns (at: Option<nat>)
      requires begin <= |bigProductionList|
      ensures at.Some? ==> begin <= at.value < |bigProductionList| && bigProductionList[at.value] == prodId
      ensures at.None? ==> prodId !in bigProductionList[begin..]
    {
      var i := begin;
      while i < |bigProductionList|
        invariant begin <= i <= |bigProductionList| && prodId !in bigProductionList[begin..i]
      {
        if bigProductionList[i] == prodId {
          return Some(i);
        }
        i := i + 1;
      }
      return None;
    }

    /** A count and the cells; the count is cut to a byte. */
    method AppendAmbig(set': seq<Byte>)
      modifies this`ambigTable
      ensures ambigTable == old(ambigTable) + [CountByte(|set'|)] + set'
    {
      ambigTable := ambigTable + [CountByte(|set'|)];
      for j := 0 to |set'|
        invariant ambigTable == old(ambigTable) + [CountByte(|set'|)] + set'[..j]
      {
        ambigTable := ambigTable + [set'[j]];
      }
    }

    /** Does the table hold this set at `startIndex`? The position need not be where a set was appended. */
    method CompareAmbig(set': seq<Byte>, startIndex: nat) returns (same: bool)
      requires startIndex + |set'| < |ambigTable|
      ensures same <==> SetAt(View(), startIndex) == Some(set')
    {
      if ambigTable[startIndex] != |set'| {
        return false;
      }
      for j := 0 to |set'|
        invariant ambigTable[startIndex + 1..startIndex + 1 + j] == set'[..j]
      {
        if ambigTable[startIndex + 1 + j] != set'[j] {
          assert ambigTable[startIndex + 1..startIndex + 1 + |set'|][j] != set'[j];
          return false;
        }
        assert ambigTable[startIndex + 1..startIndex + 2 + j]
          == ambigTable[startIndex + 1..startIndex + 1 + j] + [set'[j]];
        assert set'[..j + 1] == set'[..j] + [set'[j]];
      }
      assert set'[..|set'|] == set';
      return true;
    }

    /** An identical set at any offset of the list that starts at `begin`. */
    method FindAmbig(set': seq<Byte>, begin: nat) returns (at: Option<nat>)
      ensures at.Some? ==> begin <= at.value < |ambigTable| && SetAt(View(), at.value) == Some(set')
      ensures at.None? ==> forall i: nat :: begin <= i ==> SetAt(View(), i) != Some(set')
    {
      var i := begin;
      while i + |set'| + 1 <= |ambigTable|
        invariant begin <= i && forall j: nat :: begin <= j < i ==> SetAt(View(), j) != Some(set')
      {
        var same := CompareAmbig(set', i);
        if same {
          return Some(i);
        }
        i := i + 1;
      }
      return None;
    }

    /** Reuse an identical set, or append. The cell reads as the set exactly if its count fits in a byte. */
    method PlaceAmbig(set': seq<Byte>, s: nat, ghost t: nat) returns (r: Option<Byte>)
      requires Valid() && s < |ambigStateTable| && AllSimple(View(), set', s, t)
      modifies this`ambigTable, this`ambigStateTable
      ensures Valid() && Extends(old(View()), View()) && OnlyStartsOf(old(View()), View(), s)
      ensures AllSimple(View(), set', s, t)
      ensures ambigTable == old(ambigTable) || ambigTable == old(ambigTable) + [CountByte(|set'|)] + set'
      ensures HoldsSet(old(View()), s, set') ==> ambigTable == old(ambigTable)
      ensures AmbigLength(View(), s) <= AmbigLength(old(View()), s) + 1 + |set'|
      ensures r.None? ==> AmbigLength(View(), s) > AE_MAXINDEX + 1
      ensures r.Some? ==> (DecodeDelta(View(), r.value, s, t) == Some(Ambig(SimpleActions(View(), set', s, t))) <==>
                           |set'| <= 255)
    {
      var begin, end := ambigStateTable[s], |ambigTable|;
      if begin == UNASSIGNED {
        begin := end;
        ambigStateTable := ambigStateTable[s := end];
      } else {
        var at := FindAmbig(set', begin);
        if at.Some? {
          r := MakeAE(AE_AMBIGUOUS, at.value - begin);
          AmbigReads(View(), r, set', s, t, at.value);
          return;
        }
      }
      AppendAmbig(set');
      Appended(old(View()), View(), set', s, t);
      r := MakeAE(AE_AMBIGUOUS, end - begin);
      AmbigReads(View(), r, set', s, t, end);
    }

    /** A set of ambiguous actions. Its count is cut to a byte, which loses nothing as cells of distinct
        actions are few. */
    method EncodeAmbig(set': seq<Byte>, s: nat, ghost t: nat) returns (r: Option<Byte>)
      requires Valid() && s < |ambigStateTable| && AllSimple(View(), set', s, t)
      modifies this`ambigTable, this`ambigStateTable
      ensures Valid() && Extends(old(View()), View()) && OnlyStartsOf(old(View()), View(), s)
      ensures AllSimple(View(), set', s, t)
      ensures ambigTable == old(ambigTable) || ambigTable == old(ambigTable) + [CountByte(|set'|)] + set'
      ensures HoldsSet(old(View()), s, set') ==> ambigTable == old(ambigTable)
      ensures AmbigLength(View(), s) <= AmbigLength(old(View()), s) + 1 + |set'|
      ensures r.None? ==> AmbigLength(View(), s) > AE_MAXINDEX + 1
      ensures r.Some? ==> (DecodeDelta(View(), r.value, s, t) == Some(Ambig(SimpleActions(View(), set', s, t))) <==>
                           |set'| <= 255)
      ensures r.Some? && DistinctCells(set') ==>
                DecodeDelta(View(), r.value, s, t) == Some(Ambig(SimpleActions(View(), set', s, t)))
    {
      r := PlaceAmbig(set', s, t);
      if DistinctCells(set') {
        FewCells(View(), set', s, t);
      }
    }
  }

  lemma ProductionAppended(a: DeltaTables, b: DeltaTables, s: nat, prodId: nat)
    requires s < |a.productionsForState|
    requires a.productionsForState[s].Some? ==> a.productionsForState[s].value <= |a.bigProductionList|
    requires b == a.(bigProductionList := a.bigProductionList + [prodId],
                     productionsForState := if a.productionsForState[s].Some? then a.productionsForState
                                            else a.productionsForState[s := Some(|a.bigProductionList|)])
    ensures Extends(a, b) && OnlyStartsOf(a, b, s) && Listed(b, s) == Listed(a, s) + [prodId]
    ensures ProductionAt(b, s, |Listed(a, s)|) == Some(prodId)
  {
  }

  /** A cell that points at position `at` reads as the set exactly if the set is stored there. */
  lemma AmbigReads(dt: DeltaTables, r: Option<Byte>, set': seq<Byte>, s: nat, t: nat, at: nat)
    requires s < |dt.ambigStateTable| && dt.ambigStateTable[s].Some? && AllSimple(dt, set', s, t)
    requires r.Some? ==> Kind(r.value) == AE_AMBIGUOUS && dt.ambigStateTable[s].value + Index(r.value) == at
    requires SetAt(dt, at) == Some(set') || (|set'| > 255 && SetAt(dt, at) != Some(set'))
    ensures SetAt(dt, at) == Some(set') ==> |set'| <= 255
    ensures r.Some? ==> (DecodeDelta(dt, r.value, s, t) == Some(Ambig(SimpleActions(dt, set', s, t))) <==>
                         |set'| <= 255)
  {
    match SetAt(dt, at)
    case Some(cells) =>
      assert |cells| <= 255;
      if AllSimple(dt, cells, s, t) {
        assert |SimpleActions(dt, cells, s, t)| == |cells| && |SimpleActions(dt, set', s, t)| == |set'|;
      }
    case None =>
  }

  lemma Appended(a: DeltaTables, b: DeltaTables, set': seq<Byte>, s: nat, t: nat)
    requires Extends(a, b) && AllSimple(a, set', s, t)
    requires b.ambigTable == a.ambigTable + [CountByte(|set'|)] + set'
    ensures AllSimple(b, set', s, t) && (SetAt(b, |a.ambigTable|) == Some(set') <==> |set'| <= 255)
  {
    forall i | 0 <= i < |set'| ensures DeltaSimple(b, set'[i], s, t).Some? {
      SimpleLasts(a, b, set'[i], s, t);
    }
    var at := |a.ambigTable|;
    assert b.ambigTable[at] == CountByte(|set'|);
    if |set'| <= 255 {
      assert b.ambigTable[at + 1..at + 1 + |set'|] == set';
    }
  }

  // ---------------------------------------------------------------- gotos

  const ERROR_GOTO: nat := 255

  /** Counted from the first state of the nonterminal; fails if that is no byte, or the error byte. */
  method EncodeGoto(firstWithNonterminal: seq<nat>, destState: nat, nt: nat) returns (r: Option<nat>)
    requires nt < |firstWithNonterminal|
    ensures r.Some? ==> r.value != ERROR_GOTO && DecodeGoto(firstWithNonterminal, r.value, nt) == destState
    ensures r.Some? <==> 0 <= destState - firstWithNonterminal[nt] < ERROR_GOTO
  {
    var delta := destState - firstWithNonterminal[nt];
    r := if 0 <= delta < 256 && delta != ERROR_GOTO then Some(delta) else None;
  }

  function DecodeGoto(firstWithNonterminal: seq<nat>, code: nat, nt: nat): nat
    requires nt < |firstWithNonterminal|
  {
    firstWithNonterminal[nt] + code
  }
}
