/** The pool of block buffers: one allocation flag per buffer, addresses as offsets into the pool. */
module Allocator {
  import opened Common
  import P = Pipeline

  // m_blockSize * i is computed in 32 bits, and so is the size of the pool.
  function Address(blockSize: nat, i: nat): nat { i * blockSize % TWO32 }

  lemma Starts(blockSize: nat, ptr: nat)
    requires blockSize > 0
    ensures ptr % blockSize == 0 ==> ptr == (ptr / blockSize) * blockSize
  {
    Euclid(ptr, blockSize);
  }

  lemma NotAStart(blockSize: nat, ptr: nat, i: nat)
    requires blockSize > 0 && ptr % blockSize != 0
    ensures ptr != i * blockSize
  {
    if ptr == i * blockSize { QuotientIs(ptr, blockSize, i); }
  }

  class VolumeBlockAllocator {
    const blockSize: nat
    const allocTable: array<bool>

    ghost function Table(): seq<bool>
      reads allocTable
    {
      allocTable[..]
    }

    constructor (blockSize: nat, blockNum: nat)
      ensures fresh(allocTable) && allocTable.Length == blockNum && this.blockSize == blockSize
      ensures Table() == seq(blockNum, _ => false)
    {
      this.blockSize := blockSize;
      allocTable := new bool[blockNum](_ => false);
    }

    // Hands out the first free buffer, or null.
    method BlockAlloc() returns (ptr: Option<nat>)
      modifies allocTable
      ensures var slot := P.FirstFree(old(Table()));
        && (ptr == if slot < allocTable.Length then Some(Address(blockSize, slot)) else None)
        && (Table() == if slot < allocTable.Length then old(Table())[slot := true] else old(Table()))
    {
      var i := 0;
      while i < allocTable.Length
        invariant 0 <= i <= allocTable.Length
        invariant Table() == old(Table())
        invariant forall k :: 0 <= k < i ==> Table()[k]
      {
        if !allocTable[i] {
          assert !Table()[i];
          allocTable[i] := true;
          return Some(Address(blockSize, i));
        }
        i := i + 1;
      }
      ptr := None;
    }

    ghost function StartOf(i: nat): nat { i * blockSize }

    // Frees the buffer at ptr; false is the exception for an address that no buffer starts at.
    method BlockFree(ptr: nat) returns (ok: bool)
      requires blockSize > 0 && ptr / blockSize < allocTable.Length
      modifies allocTable
      ensures ok <==> exists i: nat :: i < allocTable.Length && ptr == StartOf(i)
      ensures ok ==> Table() == old(Table())[ptr / blockSize := false]
      ensures !ok ==> Table() == old(Table())
    {
      Starts(blockSize, ptr);
      if ptr % blockSize == 0 {
        assert ptr == StartOf(ptr / blockSize);
        allocTable[ptr / blockSize] := false;
        return true;
      }
      forall i: nat ensures ptr != StartOf(i) { NotAStart(blockSize, ptr, i); }
      ok := false;
    }
  }

  lemma BuffersInOrder(blockSize: nat, blockNum: nat, i: nat, j: nat)
    requires blockNum * blockSize < TWO32 && i < j <= blockNum
    ensures Address(blockSize, i) + blockSize <= Address(blockSize, j)
  {
    OneMore(i, blockSize);
    MulMonotone(i + 1, j, blockSize);
    MulMonotone(j, blockNum, blockSize);
  }

  lemma LastBufferSticksOut(blockSize: nat, blockNum: nat, i: nat)
    requires 0 < blockSize < TWO32 <= blockNum * blockSize && i == (TWO32 - 1) / blockSize
    ensures i < blockNum && Address(blockSize, i) + blockSize >= TWO32
  {
    Euclid(TWO32 - 1, blockSize);
    if i >= blockNum { MulMonotone(blockNum, i, blockSize); }
  }

  // Every buffer lies inside the pool, and no two share an address, exactly when the pool is
  // smaller than 4 GB.
  lemma PoolHoldsBuffers(blockSize: nat, blockNum: nat)
    requires 0 < blockSize < TWO32 && 0 < blockNum
    ensures (forall i: nat :: i < blockNum ==> Address(blockSize, i) + blockSize <= Address(blockSize, blockNum)) <==>
            blockNum * blockSize < TWO32
    ensures blockNum * blockSize < TWO32 ==>
              forall i: nat, j: nat :: i < j < blockNum ==> Address(blockSize, i) + blockSize <= Address(blockSize, j)
  {
    if blockNum * blockSize < TWO32 {
      forall i: nat, j: nat | i < j <= blockNum
        ensures Address(blockSize, i) + blockSize <= Address(blockSize, j)
      {
        BuffersInOrder(blockSize, blockNum, i, j);
      }
    } else {
      var i := (TWO32 - 1) / blockSize;
      LastBufferSticksOut(blockSize, blockNum, i);
    }
  }

  // Freeing the address just handed out frees that buffer and no other.
  lemma FreeUndoesAlloc(blockSize: nat, table: seq<bool>)
    requires 0 < blockSize && |table| * blockSize < TWO32
    requires P.FirstFree(table) < |table|
    ensures var slot := P.FirstFree(table); var ptr := Address(blockSize, slot);
      && ptr % blockSize == 0 && ptr / blockSize == slot
      && table[slot := true][ptr / blockSize := false] == table
  {
    var slot := P.FirstFree(table);
    MulMonotone(slot, |table|, blockSize);
    QuotientIs(slot * blockSize, blockSize, slot);
  }
}
