/** The bitmap of error entries, with equal rows shared. */
module ErrorBitmap {
  import opened TerminalSets

  /** Bytes of a row, rounded up to four. */
  function RowSize(numTerms: nat): nat {
    (numTerms + 31) / 32 * 4
  }

  predicate BitIn(bits: array2<bv8>, r: nat, t: nat)
    requires r < bits.Length0 && t / 8 < bits.Length1
    reads bits
  {
    HasBit(bits[r, t / 8], t % 8)
  }

  /** The bits that are set, as (row, bit) pairs. */
  ghost function BitSet(bits: array2<bv8>): set<(nat, nat)>
    reads bits
  {
    set r: nat, t: nat | r < bits.Length0 && t < 8 * bits.Length1 && BitIn(bits, r, t) :: (r, t)
  }

  /** The terminals with an error entry in state `s`. */
  ghost function Errors(table: array2<int>, err: int, s: nat): set<nat>
    requires s < table.Length0
    reads table
  {
    set t: nat | t < table.Length1 && table[s, t] == err
  }

  ghost function InRow(r: nat, ts: set<nat>): set<(nat, nat)> {
    set t | t in ts :: (r, t)
  }

  /** The bits for the states below `n`. */
  ghost function Wanted(table: array2<int>, err: int, pointers: seq<nat>, n: nat): set<(nat, nat)>
    requires n <= |pointers| == table.Length0
    reads table
  {
    set s: nat, t: nat | s < n && t < table.Length1 && table[s, t] == err :: (pointers[s], t)
  }

  /** The byte with one of its eight bits turned on. */
  method SetBit(bits: array2<bv8>, r: nat, t: nat)
    requires r < bits.Length0 && t / 8 < bits.Length1
    modifies bits
    ensures BitSet(bits) == old(BitSet(bits)) + {(r, t)}
  {
    var b := bits[r, t / 8];
    forall k | 0 <= k < 8 ensures HasBit(b | Mask(t % 8), k) <==> HasBit(b, k) || k == t % 8 {
      OrBit(b, Mask(t % 8), k);
      MaskBit(t % 8, k);
    }
    ghost var before := BitSet(bits);
    label Before:
    bits[r, t / 8] := b | Mask(t % 8);
    forall r': nat, t': nat | r' < bits.Length0 && t' < 8 * bits.Length1
      ensures BitIn(bits, r', t') <==> (r', t') in before || (r' == r && t' == t)
    {
      assert t' == 8 * (t' / 8) + t' % 8 && t == 8 * (t / 8) + t % 8;
      assert (r', t') in before <==> old@Before(BitIn(bits, r', t'));
    }
  }

  method FillRow(table: array2<int>, err: int, bits: array2<bv8>, r: nat, s: nat)
    requires s < table.Length0 && r < bits.Length0 && bits.Length1 == RowSize(table.Length1)
    requires bits as object != table as object
    modifies bits
    ensures BitSet(bits) == old(BitSet(bits)) + InRow(r, Errors(table, err, s))
  {
    ghost var done: set<nat> := {};
    for t := 0 to table.Length1
      invariant done == (set t': nat | t' < t && table[s, t'] == err)
      invariant BitSet(bits) == old(BitSet(bits)) + InRow(r, done)
    {
      if table[s, t] == err {
        assert InRow(r, done + {t}) == InRow(r, done) + {(r, t)};
        SetBit(bits, r, t);
        done := done + {t};
      }
    }
    assert done == Errors(table, err, s);
  }

  method FillInErrorBits(table: array2<int>, err: int, bits: array2<bv8>, pointers: array<nat>)
    requires pointers.Length == table.Length0 && bits.Length1 == RowSize(table.Length1) && BitSet(bits) == {}
    requires bits as object != table as object
    requires forall s :: 0 <= s < pointers.Length ==> pointers[s] < bits.Length0
    modifies bits
    ensures BitSet(bits) == Wanted(table, err, pointers[..], pointers.Length)
  {
    assert Wanted(table, err, pointers[..], 0) == {};
    for s := 0 to pointers.Length
      invariant BitSet(bits) == Wanted(table, err, pointers[..], s)
    {
      ghost var before := pointers[..];
      FillRow(table, err, bits, pointers[s], s);
      assert pointers[..] == before;
      WantedStep(table, err, pointers[..], s);
    }
  }

  lemma WantedStep(table: array2<int>, err: int, pointers: seq<nat>, s: nat)
    requires s < |pointers| == table.Length0
    ensures Wanted(table, err, pointers, s + 1)
              == Wanted(table, err, pointers, s) + InRow(pointers[s], Errors(table, err, s))
  {
    var l, r := Wanted(table, err, pointers, s + 1),
      Wanted(table, err, pointers, s) + InRow(pointers[s], Errors(table, err, s));
    forall e | e in r ensures e in l {
      if e in InRow(pointers[s], Errors(table, err, s)) {
        var t: nat :| t in Errors(table, err, s) && e == (pointers[s], t);
        assert s < s + 1 && t < table.Length1 && table[s, t] == err;
      }
    }
  }

  method ClearBits(rows: nat, numTerms: nat) returns (bits: array2<bv8>)
    ensures fresh(bits) && bits.Length0 == rows && bits.Length1 == RowSize(numTerms) && BitSet(bits) == {}
  {
    bits := new bv8[rows, RowSize(numTerms)]((i, j) => 0);
    forall k | 0 <= k < 8 ensures !HasBit(0, k) {
      ZeroBit(k);
    }
  }

  /** memcmp of two rows. */
  method SameRow(bits: array2<bv8>, r: nat, r': nat) returns (same: bool)
    requires r < bits.Length0 && r' < bits.Length0
    ensures same <==> forall t: nat :: t < 8 * bits.Length1 ==> BitIn(bits, r, t) == BitIn(bits, r', t)
  {
    for j := 0 to bits.Length1
      invariant forall i :: 0 <= i < j ==> bits[r, i] == bits[r', i]
    {
      if bits[r, j] != bits[r', j] {
        BytesDiffer(bits, r, r', j);
        return false;
      }
    }
    return true;
  }

  lemma BytesDiffer(bits: array2<bv8>, r: nat, r': nat, j: nat)
    requires r < bits.Length0 && r' < bits.Length0 && j < bits.Length1 && bits[r, j] != bits[r', j]
    ensures exists t: nat :: t < 8 * bits.Length1 && BitIn(bits, r, t) != BitIn(bits, r', t)
  {
    if forall t: nat :: t < 8 * bits.Length1 ==> BitIn(bits, r, t) == BitIn(bits, r', t) {
      forall k | 0 <= k < 8 ensures HasBit(bits[r, j], k) == HasBit(bits[r', j], k) {
        assert (8 * j + k) / 8 == j && (8 * j + k) % 8 == k;
        assert BitIn(bits, r, 8 * j + k) == BitIn(bits, r', 8 * j + k);
      }
      SameBits(bits[r, j], bits[r', j]);
    }
  }

  /** States share a row exactly if they have the same error entries, and no row is unused. */
  ghost predicate Shared(table: array2<int>, err: int, pointers: seq<nat>, n: nat, rows: nat)
    requires n <= |pointers| == table.Length0
    reads table
  {
    && (forall s :: 0 <= s < n ==> pointers[s] < rows)
    && (forall s: nat, u: nat :: s < n && u < n ==>
              (pointers[s] == pointers[u] <==> Errors(table, err, s) == Errors(table, err, u)))
    && (forall r :: 0 <= r < rows ==> r in pointers[..n])
  }

  lemma SameRowSameErrors(table: array2<int>, err: int, bits: array2<bv8>, s: nat, u: nat)
    requires bits.Length0 == table.Length0 && bits.Length1 == RowSize(table.Length1) && s < table.Length0
    requires u < table.Length0
    requires BitSet(bits) == Wanted(table, err, Identity(table.Length0), table.Length0)
    ensures (forall t: nat :: t < 8 * bits.Length1 ==> BitIn(bits, s, t) == BitIn(bits, u, t))
            <==> Errors(table, err, s) == Errors(table, err, u)
  {
    forall x: nat, t: nat | x < table.Length0 && t < 8 * bits.Length1
      ensures BitIn(bits, x, t) <==> t in Errors(table, err, x)
    {
      assert BitIn(bits, x, t) <==> (x, t) in BitSet(bits);
      if t in Errors(table, err, x) {
        assert Identity(table.Length0)[x] == x;
      }
    }
    forall x: nat, t | x < table.Length0 && t in Errors(table, err, x) ensures t < 8 * bits.Length1 {
    }
  }

  function Identity(n: nat): seq<nat> {
    seq(n, i requires 0 <= i < n => i)
  }

  /** State `s` gets the row of an earlier state with the same errors, or a new row. */
  lemma SharedStep(table: array2<int>, err: int, pointers: seq<nat>, pointers': seq<nat>, s: nat, rows: nat,
                   found: bool, u: nat)
    requires s < |pointers| == |pointers'| == table.Length0 && Shared(table, err, pointers, s, rows)
    requires if found then u < s && Errors(table, err, s) == Errors(table, err, u)
             else forall u: nat :: u < s ==> Errors(table, err, s) != Errors(table, err, u)
    requires pointers' == pointers[s := if found then pointers[u] else rows]
    ensures Shared(table, err, pointers', s + 1, if found then rows else rows + 1)
  {
    assert pointers'[..s + 1] == pointers[..s] + [pointers'[s]];
    assert forall r :: r in pointers[..s] ==> r in pointers'[..s + 1];
  }

  /** Map each state to the first state with the same row. */
  method ShareRows(table: array2<int>, err: int, bits: array2<bv8>)
      returns (compressed: array<nat>, uniqueErrorRows: nat)
    requires bits.Length0 == table.Length0 && bits.Length1 == RowSize(table.Length1)
    requires BitSet(bits) == Wanted(table, err, Identity(table.Length0), table.Length0)
    ensures fresh(compressed) && compressed.Length == table.Length0
    ensures Shared(table, err, compressed[..], compressed.Length, uniqueErrorRows)
  {
    compressed := new nat[table.Length0](_ => 0);
    uniqueErrorRows := 0;
    for s := 0 to table.Length0
      invariant Shared(table, err, compressed[..], s, uniqueErrorRows)
    {
      ghost var was, rows := compressed[..], uniqueErrorRows;
      var found, t := FindEqualRow(table, err, bits, s);
      if found {
        compressed[s] := compressed[t];
      } else {
        compressed[s] := uniqueErrorRows;
        uniqueErrorRows := uniqueErrorRows + 1;
      }
      SharedStep(table, err, was, compressed[..], s, rows, found, t);
    }
  }

  method FindEqualRow(table: array2<int>, err: int, bits: array2<bv8>, s: nat) returns (found: bool, t: nat)
    requires bits.Length0 == table.Length0 && bits.Length1 == RowSize(table.Length1) && s < table.Length0
    requires BitSet(bits) == Wanted(table, err, Identity(table.Length0), table.Length0)
    ensures if found then t < s && Errors(table, err, s) == Errors(table, err, t)
            else forall u: nat :: u < s ==> Errors(table, err, s) != Errors(table, err, u)
  {
    t := 0;
    while t < s
      invariant 0 <= t <= s && forall u: nat :: u < t ==> Errors(table, err, s) != Errors(table, err, u)
    {
      var same := SameRow(bits, s, t);
      SameRowSameErrors(table, err, bits, s, t);
      if same {
        return true, t;
      }
      t := t + 1;
    }
    return false, t;
  }

  /** The bit of state `s` and terminal `t` says whether the entry is an error; equal rows are stored once. */
  method ComputeErrorBits(table: array2<int>, err: int) returns (errorBits: array2<bv8>, errorBitsPointers: array<nat>)
    ensures fresh(errorBits) && fresh(errorBitsPointers) && errorBitsPointers.Length == table.Length0
    ensures errorBits.Length1 == RowSize(table.Length1)
    ensures Shared(table, err, errorBitsPointers[..], table.Length0, errorBits.Length0)
    ensures forall s: nat, t: nat :: s < table.Length0 && t < table.Length1 ==>
              (BitIn(errorBits, errorBitsPointers[s], t) <==> table[s, t] == err)
  {
    errorBits := ClearBits(table.Length0, table.Length1);
    errorBitsPointers := new nat[table.Length0](i => i);
    assert errorBitsPointers[..] == Identity(table.Length0);
    FillInErrorBits(table, err, errorBits, errorBitsPointers);
    var uniqueErrorRows;
    errorBitsPointers, uniqueErrorRows := ShareRows(table, err, errorBits);
    errorBits := ClearBits(uniqueErrorRows, table.Length1);
    FillInErrorBits(table, err, errorBits, errorBitsPointers);
    SharedBits(table, err, errorBits, errorBitsPointers[..]);
  }

  lemma SharedBits(table: array2<int>, err: int, bits: array2<bv8>, pointers: seq<nat>)
    requires |pointers| == table.Length0 && bits.Length1 == RowSize(table.Length1)
    requires Shared(table, err, pointers, |pointers|, bits.Length0)
    requires BitSet(bits) == Wanted(table, err, pointers, |pointers|)
    ensures forall s: nat, t: nat :: s < table.Length0 && t < table.Length1 ==>
              (BitIn(bits, pointers[s], t) <==> table[s, t] == err)
  {
    forall s: nat, t: nat | s < table.Length0 && t < table.Length1
      ensures BitIn(bits, pointers[s], t) <==> table[s, t] == err
    {
      assert BitIn(bits, pointers[s], t) <==> (pointers[s], t) in BitSet(bits);
      if (pointers[s], t) in BitSet(bits) {
        var u: nat, t': nat :| u < |pointers| && t' < table.Length1 && table[u, t'] == err
          && (pointers[u], t') == (pointers[s], t);
        assert t in Errors(table, err, u);
      }
    }
  }
}
