/** Sets of terminals as byte bitmaps; the least significant bit of byte 0 is terminal 0. */
module TerminalSets {

  function HasBit(b: bv8, k: nat): bool
    requires k < 8
  {
    (b >> k) & 1 == 1
  }

  function Mask(k: nat): bv8
    requires k < 8
  {
    1 << k
  }

  lemma OrBit(b: bv8, c: bv8, k: nat)
    requires k < 8
    ensures HasBit(b | c, k) <==> HasBit(b, k) || HasBit(c, k)
  {
    if k == 0 {} else if k == 1 {} else if k == 2 {} else if k == 3 {} else if k == 4 {} else if k == 5 {}
      else if k == 6 {} else {}
  }

  lemma AndBit(b: bv8, c: bv8, k: nat)
    requires k < 8
    ensures HasBit(b & c, k) <==> HasBit(b, k) && HasBit(c, k)
  {
    if k == 0 {} else if k == 1 {} else if k == 2 {} else if k == 3 {} else if k == 4 {} else if k == 5 {}
      else if k == 6 {} else {}
  }

  lemma NotBit(c: bv8, k: nat)
    requires k < 8
    ensures HasBit(!c, k) <==> !HasBit(c, k)
  {
    if k == 0 {} else if k == 1 {} else if k == 2 {} else if k == 3 {} else if k == 4 {} else if k == 5 {}
      else if k == 6 {} else {}
  }

  lemma AndNotBit(b: bv8, c: bv8, k: nat)
    requires k < 8
    ensures HasBit(b & !c, k) <==> HasBit(b, k) && !HasBit(c, k)
  {
    AndBit(b, !c, k);
    NotBit(c, k);
  }

  lemma MaskBit(j: nat, k: nat)
    requires j < 8 && k < 8
    ensures HasBit(Mask(j), k) <==> j == k
  {
    if j == 0 {} else if j == 1 {} else if j == 2 {} else if j == 3 {} else if j == 4 {} else if j == 5 {}
      else if j == 6 {} else {}
  }

  /** A byte is its bits. */
  lemma SameBits(b: bv8, c: bv8)
    requires forall k :: 0 <= k < 8 ==> HasBit(b, k) == HasBit(c, k)
    ensures b == c
  {
    assert HasBit(b, 0) == HasBit(c, 0);
    assert HasBit(b, 1) == HasBit(c, 1);
    assert HasBit(b, 2) == HasBit(c, 2);
    assert HasBit(b, 3) == HasBit(c, 3);
    assert HasBit(b, 4) == HasBit(c, 4);
    assert HasBit(b, 5) == HasBit(c, 5);
    assert HasBit(b, 6) == HasBit(c, 6);
    assert HasBit(b, 7) == HasBit(c, 7);
  }

  /** The set a bitmap stands for. */
  ghost function Bits(bytes: seq<bv8>): set<nat> {
    set i: nat | i < 8 * |bytes| && BitAt(bytes, i)
  }

  predicate BitAt(bytes: seq<bv8>, i: nat)
    requires i < 8 * |bytes|
  {
    HasBit(bytes[i / 8], i % 8)
  }

  lemma BitsEqual(a: seq<bv8>, b: seq<bv8>)
    requires |a| == |b|
    ensures Bits(a) == Bits(b) <==> a == b
  {
    if Bits(a) == Bits(b) {
      forall i | 0 <= i < |a| ensures a[i] == b[i] {
        forall k | 0 <= k < 8 ensures HasBit(a[i], k) == HasBit(b[i], k) {
          assert (8 * i + k) / 8 == i && (8 * i + k) % 8 == k;
          assert BitAt(a, 8 * i + k) <==> BitAt(b, 8 * i + k) by {
            assert 8 * i + k in Bits(a) <==> 8 * i + k in Bits(b);
          }
        }
        SameBits(a[i], b[i]);
      }
    }
  }

  class TerminalSet {
    const bitmap: array<bv8>

    /** Initially empty, with room for `numTerms` terminals. */
    constructor (numTerms: nat)
      ensures fresh(bitmap) && bitmap.Length == (numTerms + 7) / 8 && Members() == {}
    {
      bitmap := new bv8[(numTerms + 7) / 8](i => 0);
      new;
      forall k | 0 <= k < 8 ensures !HasBit(0, k) {
        ZeroBit(k);
      }
    }

    ghost function Members(): set<nat>
      reads bitmap
    {
      Bits(bitmap[..])
    }

    function Room(): nat {
      8 * bitmap.Length
    }

    method Contains(index: nat) returns (yes: bool)
      requires index < Room()
      ensures yes <==> index in Members()
    {
      yes := HasBit(bitmap[index / 8], index % 8);
      assert yes == BitAt(bitmap[..], index);
    }

    method IsEqual(obj: TerminalSet) returns (yes: bool)
      requires obj.bitmap.Length == bitmap.Length
      ensures yes <==> Members() == obj.Members()
    {
      BitsEqual(bitmap[..], obj.bitmap[..]);
      for i := 0 to bitmap.Length
        invariant bitmap[..i] == obj.bitmap[..i]
      {
        if bitmap[i] != obj.bitmap[i] {
          return false;
        }
      }
      assert bitmap[..bitmap.Length] == bitmap[..] && obj.bitmap[..obj.bitmap.Length] == obj.bitmap[..];
      return true;
    }

    method Add(index: nat)
      requires index < Room()
      modifies bitmap
      ensures Members() == old(Members()) + {index}
    {
      AddBit(bitmap[..], index);
      bitmap[index / 8] := bitmap[index / 8] | Mask(index % 8);
      assert bitmap[..] == old(bitmap[..])[index / 8 := bitmap[index / 8]];
    }

    method Remove(index: nat)
      requires index < Room()
      modifies bitmap
      ensures Members() == old(Members()) - {index}
    {
      RemoveBit(bitmap[..], index);
      bitmap[index / 8] := bitmap[index / 8] & !Mask(index % 8);
      assert bitmap[..] == old(bitmap[..])[index / 8 := bitmap[index / 8]];
    }

    method Clear()
      modifies bitmap
      ensures Members() == {}
    {
      for i := 0 to bitmap.Length
        invariant forall j :: 0 <= j < i ==> bitmap[j] == 0
      {
        bitmap[i] := 0;
      }
      forall k | 0 <= k < 8 ensures !HasBit(0, k) {
        ZeroBit(k);
      }
    }

    method Copy(obj: TerminalSet)
      requires obj.bitmap.Length == bitmap.Length
      modifies bitmap
      ensures Members() == old(obj.Members())
    {
      ghost var src := obj.bitmap[..];
      for i := 0 to bitmap.Length
        invariant bitmap[..i] == src[..i] && obj.bitmap[i..] == src[i..]
      {
        bitmap[i] := obj.bitmap[i];
      }
      assert bitmap[..] == src;
    }

    method OrByte(i: nat, b: bv8) returns (changed: bool)
      requires i < bitmap.Length
      modifies bitmap
      ensures forall j :: 0 <= j < bitmap.Length ==> bitmap[j] == if j == i then old(bitmap[j]) | b else old(bitmap[j])
      ensures changed <==> bitmap[i] != old(bitmap[i])
    {
      var before := bitmap[i];
      var after := before | b;
      changed := after != before;
      if changed {
        bitmap[i] := after;
      }
    }

    method AndByte(i: nat, b: bv8) returns (changed: bool)
      requires i < bitmap.Length
      modifies bitmap
      ensures forall j :: 0 <= j < bitmap.Length ==> bitmap[j] == if j == i then old(bitmap[j]) & b else old(bitmap[j])
      ensures changed <==> bitmap[i] != old(bitmap[i])
    {
      var before := bitmap[i];
      var after := before & b;
      changed := after != before;
      if changed {
        bitmap[i] := after;
      }
    }

    /** Byte by byte, from the first; a set merged with itself is read just before it is written. */
    method OrAll(obj: TerminalSet) returns (changed: bool)
      requires obj.bitmap.Length == bitmap.Length
      modifies bitmap
      ensures bitmap[..] == OrBytes(old(bitmap[..]), old(obj.bitmap[..]))
      ensures (changed <==> bitmap[..] != old(bitmap[..]))
    {
      ghost var mine, theirs := bitmap[..], obj.bitmap[..];
      ghost var goal := OrBytes(mine, theirs);
      changed := false;
      for i := 0 to bitmap.Length
        invariant forall j :: 0 <= j < i ==> bitmap[j] == goal[j]
        invariant forall j :: i <= j < bitmap.Length ==> bitmap[j] == mine[j] && obj.bitmap[j] == theirs[j]
        invariant !changed <==> forall j :: 0 <= j < i ==> goal[j] == mine[j]
      {
        var differs := OrByte(i, obj.bitmap[i]);
        changed := changed || differs;
      }
      assert bitmap[..] == goal;
    }

    method AndNotAll(obj: TerminalSet) returns (changed: bool)
      requires obj.bitmap.Length == bitmap.Length
      modifies bitmap
      ensures bitmap[..] == AndNotBytes(old(bitmap[..]), old(obj.bitmap[..]))
      ensures (changed <==> bitmap[..] != old(bitmap[..]))
    {
      ghost var mine, theirs := bitmap[..], obj.bitmap[..];
      ghost var goal := AndNotBytes(mine, theirs);
      changed := false;
      for i := 0 to bitmap.Length
        invariant forall j :: 0 <= j < i ==> bitmap[j] == goal[j]
        invariant forall j :: i <= j < bitmap.Length ==> bitmap[j] == mine[j] && obj.bitmap[j] == theirs[j]
        invariant !changed <==> forall j :: 0 <= j < i ==> goal[j] == mine[j]
      {
        var differs := AndByte(i, !obj.bitmap[i]);
        changed := changed || differs;
      }
      assert bitmap[..] == goal;
    }

    /** Union in place; reports whether a byte changed, which is whether the set grew. */
    method Merge(obj: TerminalSet) returns (changed: bool)
      requires obj.bitmap.Length == bitmap.Length
      modifies bitmap
      ensures Members() == old(Members()) + old(obj.Members())
      ensures changed <==> !(old(obj.Members()) <= old(Members()))
    {
      ghost var mine, theirs := bitmap[..], obj.bitmap[..];
      changed := OrAll(obj);
      OrBits(mine, theirs);
      BitsEqual(mine, bitmap[..]);
    }

    /** Difference in place; reports whether the set shrank. */
    method RemoveSet(obj: TerminalSet) returns (changed: bool)
      requires obj.bitmap.Length == bitmap.Length
      modifies bitmap
      ensures Members() == old(Members()) - old(obj.Members())
      ensures changed <==> !(old(Members()) !! old(obj.Members()))
    {
      ghost var mine, theirs := bitmap[..], obj.bitmap[..];
      changed := AndNotAll(obj);
      AndNotBits(mine, theirs);
      BitsEqual(mine, bitmap[..]);
    }
  }

  lemma AddBit(a: seq<bv8>, index: nat)
    requires index < 8 * |a|
    ensures Bits(a[index / 8 := a[index / 8] | Mask(index % 8)]) == Bits(a) + {index}
  {
    var b := a[index / 8 := a[index / 8] | Mask(index % 8)];
    forall i: nat | i < 8 * |a| ensures BitAt(b, i) <==> BitAt(a, i) || i == index {
      assert i == 8 * (i / 8) + i % 8 && index == 8 * (index / 8) + index % 8;
      if i / 8 == index / 8 {
        OrBit(a[index / 8], Mask(index % 8), i % 8);
        MaskBit(index % 8, i % 8);
        assert i == index <==> i % 8 == index % 8;
      }
    }
  }

  lemma RemoveBit(a: seq<bv8>, index: nat)
    requires index < 8 * |a|
    ensures Bits(a[index / 8 := a[index / 8] & !Mask(index % 8)]) == Bits(a) - {index}
  {
    var b := a[index / 8 := a[index / 8] & !Mask(index % 8)];
    forall i: nat | i < 8 * |a| ensures BitAt(b, i) <==> BitAt(a, i) && i != index {
      assert i == 8 * (i / 8) + i % 8 && index == 8 * (index / 8) + index % 8;
      if i / 8 == index / 8 {
        AndNotBit(a[index / 8], Mask(index % 8), i % 8);
        MaskBit(index % 8, i % 8);
        assert i == index <==> i % 8 == index % 8;
      }
    }
  }

  lemma ZeroBit(k: nat)
    requires k < 8
    ensures !HasBit(0, k)
  {
  }

  function OrBytes(a: seq<bv8>, b: seq<bv8>): (c: seq<bv8>)
    requires |a| == |b|
  {
    seq(|a|, i requires 0 <= i < |a| => a[i] | b[i])
  }

  function AndNotBytes(a: seq<bv8>, b: seq<bv8>): (c: seq<bv8>)
    requires |a| == |b|
  {
    seq(|a|, i requires 0 <= i < |a| => a[i] & !b[i])
  }

  lemma OrBits(a: seq<bv8>, b: seq<bv8>)
    requires |a| == |b|
    ensures Bits(OrBytes(a, b)) == Bits(a) + Bits(b)
  {
    forall i: nat | i < 8 * |a| ensures BitAt(OrBytes(a, b), i) <==> BitAt(a, i) || BitAt(b, i) {
      OrBit(a[i / 8], b[i / 8], i % 8);
    }
  }

  lemma AndNotBits(a: seq<bv8>, b: seq<bv8>)
    requires |a| == |b|
    ensures Bits(AndNotBytes(a, b)) == Bits(a) - Bits(b)
  {
    forall i: nat | i < 8 * |a| ensures BitAt(AndNotBytes(a, b), i) <==> BitAt(a, i) && !BitAt(b, i) {
      AndNotBit(a[i / 8], b[i / 8], i % 8);
    }
  }
}
