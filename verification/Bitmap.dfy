/** The bitmap of a session at bit level, and the set of block indices it stands for. */
module Bitmaps {
  import opened Common
  import P = Pipeline

  const BITS_PER_UINT8 := 8

  type Byte = bv8

  function Mask(k: nat): Byte
    requires k < BITS_PER_UINT8
  {
    (1 as bv8) << k
  }

  predicate Bit(b: Byte, k: nat)
    requires k < BITS_PER_UINT8
  {
    b & Mask(k) != 0
  }

  lemma MaskValues()
    ensures Mask(0) == 1 && Mask(1) == 2 && Mask(2) == 4 && Mask(3) == 8
    ensures Mask(4) == 16 && Mask(5) == 32 && Mask(6) == 64 && Mask(7) == 128
  {}

  lemma OrOwnMask(b: Byte, k: nat)
    requires k < BITS_PER_UINT8
    ensures Bit(b | Mask(k), k)
  {
    MaskValues();
  }

  lemma OrDisjoint(b: Byte, m: Byte, n: Byte)
    requires m & n == 0
    ensures (b | m) & n == b & n
  {}

  lemma OrOtherMask(b: Byte, k: nat, l: nat)
    requires k < BITS_PER_UINT8 && l < BITS_PER_UINT8 && k != l
    ensures (b | Mask(k)) & Mask(l) == b & Mask(l)
  {
    MaskValues();
    assert Mask(k) & Mask(l) == 0;
    OrDisjoint(b, Mask(k), Mask(l));
  }

  // Or-ing in a mask sets its bit and leaves the other seven alone.
  lemma OrSetsOneBit(b: Byte, k: nat, l: nat)
    requires k < BITS_PER_UINT8 && l < BITS_PER_UINT8
    ensures Bit(b | Mask(k), l) <==> Bit(b, l) || k == l
  {
    MaskValues();
    if k == l { OrOwnMask(b, k); } else { OrOtherMask(b, k, l); }
  }

  // The indices a table of bytes stands for.
  ghost function Indices(table: seq<Byte>): set<nat> {
    set i | 0 <= i < |table| * BITS_PER_UINT8 && Bit(table[i / 8], i % 8)
  }

  // Those of one byte, at byte position k.
  ghost function InByte(b: Byte, k: nat): set<nat> {
    set i | 8 * k <= i < 8 * k + 8 && Bit(b, i % 8)
  }

  lemma BytesAreSlices(table: seq<Byte>, k: nat)
    requires k < |table|
    ensures InByte(table[k], k) == P.ByteOf(Indices(table), k)
  {}

  lemma StoreIndexAt(table: seq<Byte>, i: nat, loaded: Byte, k: nat)
    requires i < |table| * BITS_PER_UINT8 && k < |table| * BITS_PER_UINT8
    ensures k in Indices(table[i / 8 := loaded | Mask(i % 8)]) <==>
            if k / 8 == i / 8 then k == i || k in InByte(loaded, i / 8) else k in Indices(table)
  {
    if k / 8 == i / 8 {
      OrSetsOneBit(loaded, i % 8, k % 8);
      assert k == 8 * (k / 8) + k % 8 && i == 8 * (i / 8) + i % 8;
    }
  }

  // Storing a byte that was loaded earlier, with one more bit, replaces that byte's bits and no others.
  lemma StoreIndices(table: seq<Byte>, i: nat, loaded: Byte)
    requires i < |table| * BITS_PER_UINT8
    ensures Indices(table[i / 8 := loaded | Mask(i % 8)]) == P.StoreByte(Indices(table), i, InByte(loaded, i / 8))
  {
    var table' := table[i / 8 := loaded | Mask(i % 8)];
    forall k: nat ensures k in Indices(table') <==> k in P.StoreByte(Indices(table), i, InByte(loaded, i / 8)) {
      if k < |table| * BITS_PER_UINT8 { StoreIndexAt(table, i, loaded, k); }
    }
  }

  // With nobody in between, a Set adds one index and leaves all others alone.
  lemma SetIndices(table: seq<Byte>, i: nat)
    requires i < |table| * BITS_PER_UINT8
    ensures Indices(table[i / 8 := table[i / 8] | Mask(i % 8)]) == Indices(table) + {i}
  {
    StoreIndices(table, i, table[i / 8]);
    BytesAreSlices(table, i / 8);
  }

  class Bitmap {
    const table: array<Byte>

    ghost function Elements(): set<nat>
      reads table
    {
      Indices(table[..])
    }

    // Always one byte more than size / 8: at least one bit stays unused.
    constructor (size: nat)
      ensures fresh(table) && table.Length == P.Capacity(size)
      ensures Elements() == {}
    {
      table := new Byte[size / BITS_PER_UINT8 + 1](_ => 0);
    }

    // Takes over a buffer read from a checkpoint file.
    constructor FromBuffer(buffer: array<Byte>)
      ensures table == buffer && Elements() == Indices(buffer[..])
    {
      table := buffer;
    }

    // The first half of Set: it is not atomic.
    method Load(index: nat) returns (loaded: Byte)
      requires index < table.Length * BITS_PER_UINT8
      ensures InByte(loaded, index / 8) == P.ByteOf(Elements(), index / 8)
    {
      loaded := table[index / 8];
      BytesAreSlices(table[..], index / 8);
    }

    // The second half, whatever other threads have stored since.
    method Store(index: nat, loaded: Byte)
      requires index < table.Length * BITS_PER_UINT8
      modifies table
      ensures Elements() == P.StoreByte(old(Elements()), index, InByte(loaded, index / 8))
    {
      StoreIndices(table[..], index, loaded);
      table[index / 8] := loaded | Mask(index % 8);
      assert table[..] == old(table[..])[index / 8 := loaded | Mask(index % 8)];
    }

    method Set(index: nat)
      modifies table
      ensures Elements() == old(Elements()) + (if index < table.Length * BITS_PER_UINT8 then {index} else {})
    {
      if index >= table.Length * BITS_PER_UINT8 {
        return;
      }
      SetIndices(table[..], index);
      var loaded := Load(index);
      BytesAreSlices(table[..], index / 8);
      Store(index, loaded);
    }

    method Test(index: nat) returns (r: bool)
      ensures r <==> index in Elements()
    {
      if index >= table.Length * BITS_PER_UINT8 {
        return false;
      }
      r := Bit(table[index / 8], index % 8);
    }

    method MaxIndex() returns (r: nat)
      requires table.Length > 0
      ensures forall i :: i in Elements() ==> i <= r
      ensures r == table.Length * BITS_PER_UINT8 - 1
    {
      r := table.Length * BITS_PER_UINT8 - 1;
    }

    // The least index that is not in the bitmap.
    method FirstIndexUnset() returns (r: nat)
      requires table.Length > 0
      ensures r !in Elements()
      ensures forall i :: 0 <= i < r ==> i in Elements()
    {
      var index := 0;
      while index < table.Length * BITS_PER_UINT8
        invariant forall i :: 0 <= i < index ==> i in Elements()
        invariant index <= table.Length * BITS_PER_UINT8
      {
        var isSet := Test(index);
        if !isSet {
          return index;
        }
        index := index + 1;
      }
      r := MaxIndex();
      r := r + 1;
    }

    method TotalSetCount() returns (count: nat)
      ensures count == |Elements()|
    {
      count := 0;
      var index := 0;
      assert Below(Elements(), 0) == {};
      while index < table.Length * BITS_PER_UINT8
        invariant index <= table.Length * BITS_PER_UINT8
        invariant count == |Below(Elements(), index)|
      {
        BelowGrows(Elements(), index + 1);
        var isSet := Test(index);
        count := count + (if isSet then 1 else 0);
        index := index + 1;
      }
      assert Below(Elements(), index) == Elements();
    }
  }

  // The spare bit: as long as only blocks of the session are in the bitmap, the resume index is
  // the one the pipeline uses, never beyond the session, and one past the last block exactly when
  // every block is in it.
  lemma ResumeIndex(x: set<nat>, n: nat, r: nat)
    requires forall i :: i in x ==> i < n
    requires r !in x && forall i :: 0 <= i < r ==> i in x
    ensures r == P.FirstUnset(x, n) <= n < P.Capacity(n) * BITS_PER_UINT8
    ensures r == n <==> forall i :: 0 <= i < n ==> i in x
  {
    var f := P.FirstUnset(x, n);
    assert n !in x;
    assert f !in x;
    assert f < r ==> f in x;
    assert r < f ==> r in x;
  }
}
