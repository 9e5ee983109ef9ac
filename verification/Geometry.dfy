/** From volume to sessions to blocks to bytes. */
module Geometry {
  import opened Common

  const TWO63 := 0x8000_0000_0000_0000

  // ---------------------------------------------------------------- volume into sessions

  datatype CopySegment = CopySegment(index: nat, offset: nat, size: nat)

  function EndOf(ss: seq<CopySegment>): nat {
    if ss == [] then 0 else ss[|ss| - 1].offset + ss[|ss| - 1].size
  }

  ghost predicate Prefix(ss: seq<CopySegment>, sessionSize: nat)
    decreases |ss|
  {
    var last := |ss| - 1;
    ss == [] ||
    (Prefix(ss[..last], sessionSize) && ss[last].index == last && 0 < ss[last].size <= sessionSize
     && ss[last].offset == EndOf(ss[..last]))
  }

  // The sessions lie end to end from 0 to the end of the volume; only the last may be short.
  ghost predicate TilesVolume(ss: seq<CopySegment>, volumeSize: nat, sessionSize: nat) {
    && Prefix(ss, sessionSize)
    && (forall k :: 0 <= k < |ss| - 1 ==> ss[k].size == sessionSize)
    && EndOf(ss) == volumeSize
  }

  lemma {:induction false} PrefixAt(ss: seq<CopySegment>, sessionSize: nat, k: nat)
    requires Prefix(ss, sessionSize) && k < |ss|
    ensures ss[k].index == k && 0 < ss[k].size <= sessionSize
    ensures ss[k].offset == if k == 0 then 0 else ss[k - 1].offset + ss[k - 1].size
    decreases |ss|
  {
    var last := |ss| - 1;
    if k < last { PrefixAt(ss[..last], sessionSize, k); }
  }

  // One turn of the loop: the offset after a session that starts at `offset`, in 64 bits.
  function NextSize(offset: nat, volumeSize: nat, sessionSize: nat): nat
    requires offset < volumeSize
  {
    if (offset + sessionSize) % TWO64 >= volumeSize then volumeSize - offset else sessionSize
  }

  // The condition under which the 64-bit sums of the split stay right: the sessions, the last one
  // taken whole, end below 2^64.
  predicate Splits(volumeSize: nat, sessionSize: nat) {
    && volumeSize < TWO64 && sessionSize < TWO64
    && (volumeSize > 0 ==> sessionSize > 0 && TotalBlocks(volumeSize, sessionSize) * sessionSize < TWO64)
  }

  // Session k starts at k * sessionSize, and the next one no later than the volume ends.
  lemma NothingWraps(k: nat, offset: nat, volumeSize: nat, sessionSize: nat)
    requires Splits(volumeSize, sessionSize) && offset == k * sessionSize < volumeSize
    ensures var size := NextSize(offset, volumeSize, sessionSize);
      && size == (if offset + sessionSize >= volumeSize then volumeSize - offset else sessionSize)
      && (offset + size) % TWO64 == offset + size
      && offset + sessionSize == (k + 1) * sessionSize
  {
    var total := TotalBlocks(volumeSize, sessionSize);
    BlocksCover(volumeSize, sessionSize);
    if k >= total { MulMonotone(total, k, sessionSize); }
    MulMonotone(k + 1, total, sessionSize);
    OneMore(k, sessionSize);
  }

  // The sessions found when the loop stands at `offset`.
  ghost predicate SplitSoFar(ss: seq<CopySegment>, offset: nat, volumeSize: nat, sessionSize: nat) {
    && Prefix(ss, sessionSize)
    && offset == EndOf(ss) <= volumeSize
    && (forall k :: 0 <= k < |ss| && (offset < volumeSize || k < |ss| - 1) ==> ss[k].size == sessionSize)
    && (offset < volumeSize ==> offset == |ss| * sessionSize)
  }

  lemma SplitStep(ss: seq<CopySegment>, offset: nat, volumeSize: nat, sessionSize: nat)
    requires Splits(volumeSize, sessionSize) && SplitSoFar(ss, offset, volumeSize, sessionSize) && offset < volumeSize
    ensures var size := NextSize(offset, volumeSize, sessionSize);
      && (offset + size) % TWO64 == offset + size > offset
      && SplitSoFar(ss + [CopySegment(|ss|, offset, size)], offset + size, volumeSize, sessionSize)
  {
    NothingWraps(|ss|, offset, volumeSize, sessionSize);
    var more := ss + [CopySegment(|ss|, offset, NextSize(offset, volumeSize, sessionSize))];
    assert more[..|more| - 1] == ss;
  }

  lemma SplitDone(ss: seq<CopySegment>, volumeSize: nat, sessionSize: nat)
    requires SplitSoFar(ss, volumeSize, volumeSize, sessionSize)
    ensures TilesVolume(ss, volumeSize, sessionSize)
  {}

  method SplitSessions(volumeSize: nat, sessionSize: nat) returns (sessions: seq<CopySegment>)
    requires Splits(volumeSize, sessionSize)
    ensures TilesVolume(sessions, volumeSize, sessionSize)
  {
    sessions := [];
    var sessionIndex, sessionOffset := 0, 0;
    while sessionOffset < volumeSize
      invariant sessionIndex == |sessions| && SplitSoFar(sessions, sessionOffset, volumeSize, sessionSize)
    {
      SplitStep(sessions, sessionOffset, volumeSize, sessionSize);
      var size := sessionSize;
      if (sessionOffset + sessionSize) % TWO64 >= volumeSize {
        size := volumeSize - sessionOffset;
      }
      sessions := sessions + [CopySegment(sessionIndex, sessionOffset, size)];
      sessionOffset := (sessionOffset + size) % TWO64;
      sessionIndex := sessionIndex + 1;
    }
  }

  // Where the loop stands after k turns.
  function OffsetAfter(k: nat, volumeSize: nat, sessionSize: nat): nat {
    if k == 0 then 0
    else
      var offset := OffsetAfter(k - 1, volumeSize, sessionSize);
      if offset < volumeSize then (offset + NextSize(offset, volumeSize, sessionSize)) % TWO64 else offset
  }

  // Where it should stand.
  function RightOffset(k: nat, volumeSize: nat, sessionSize: nat): nat {
    if k * sessionSize < volumeSize then k * sessionSize else volumeSize
  }

  lemma {:induction false} OffsetsGrow(k: nat, volumeSize: nat, sessionSize: nat)
    requires 0 < volumeSize && Splits(volumeSize, sessionSize)
    ensures OffsetAfter(k, volumeSize, sessionSize) == RightOffset(k, volumeSize, sessionSize)
  {
    if k > 0 {
      OffsetsGrow(k - 1, volumeSize, sessionSize);
      OneMore(k - 1, sessionSize);
      var before := (k - 1) * sessionSize;
      if before < volumeSize { NothingWraps(k - 1, before, volumeSize, sessionSize); }
    }
  }

  // A sum that wraps falls short of the end of the volume.
  lemma WrappedOffset(k: nat, volumeSize: nat, sessionSize: nat)
    requires 0 < volumeSize < TWO64 && 0 < sessionSize < TWO64
    requires OffsetAfter(k, volumeSize, sessionSize) < volumeSize
    requires OffsetAfter(k, volumeSize, sessionSize) + sessionSize >= TWO64
    ensures OffsetAfter(k + 1, volumeSize, sessionSize) < volumeSize
  {
    var offset := OffsetAfter(k, volumeSize, sessionSize);
    assert (offset + sessionSize) % TWO64 == offset + sessionSize - TWO64 < volumeSize;
  }

  lemma LastSumWraps(volumeSize: nat, sessionSize: nat)
    requires 0 < volumeSize < TWO64 && 0 < sessionSize < TWO64
    requires TotalBlocks(volumeSize, sessionSize) * sessionSize >= TWO64
    ensures exists k: nat :: OffsetAfter(k, volumeSize, sessionSize) != RightOffset(k, volumeSize, sessionSize)
  {
    var k := TotalBlocks(volumeSize, sessionSize) - 1;
    BlocksCover(volumeSize, sessionSize);
    OneMore(k, sessionSize);
    if OffsetAfter(k, volumeSize, sessionSize) == RightOffset(k, volumeSize, sessionSize) {
      WrappedOffset(k, volumeSize, sessionSize);
      assert OffsetAfter(k + 1, volumeSize, sessionSize) != RightOffset(k + 1, volumeSize, sessionSize);
    }
  }

  // The split goes right exactly when the sessions, the last one taken whole, end below 2^64.
  // Otherwise the sum wraps at the last session, and the loop goes on from an offset it has passed.
  lemma SplitIsRight(volumeSize: nat, sessionSize: nat)
    requires 0 < volumeSize < TWO64 && 0 < sessionSize < TWO64
    ensures (forall k: nat :: OffsetAfter(k, volumeSize, sessionSize) == RightOffset(k, volumeSize, sessionSize)) <==>
            TotalBlocks(volumeSize, sessionSize) * sessionSize < TWO64
  {
    var total := TotalBlocks(volumeSize, sessionSize);
    if total * sessionSize < TWO64 {
      forall k: nat ensures OffsetAfter(k, volumeSize, sessionSize) == RightOffset(k, volumeSize, sessionSize) {
        OffsetsGrow(k, volumeSize, sessionSize);
      }
    } else {
      LastSumWraps(volumeSize, sessionSize);
    }
  }

  lemma {:induction false} OffsetStays(k: nat, volumeSize: nat)
    requires volumeSize < TWO64
    ensures OffsetAfter(k, volumeSize, 0) == 0
  {
    if k > 0 { OffsetStays(k - 1, volumeSize); }
  }

  // With a session size of zero the loop never ends.
  lemma ZeroNeverEnds(volumeSize: nat)
    requires volumeSize < TWO64
    ensures (exists k: nat :: OffsetAfter(k, volumeSize, 0) >= volumeSize) <==> volumeSize == 0
  {
    if volumeSize == 0 {
      assert OffsetAfter(0, volumeSize, 0) >= volumeSize;
    } else {
      forall k: nat ensures OffsetAfter(k, volumeSize, 0) < volumeSize { OffsetStays(k, volumeSize); }
    }
  }

  lemma {:induction false} OffsetsUpTo(ss: seq<CopySegment>, sessionSize: nat, k: nat)
    requires Prefix(ss, sessionSize) && k < |ss|
    requires forall i :: 0 <= i < |ss| - 1 ==> ss[i].size == sessionSize
    ensures ss[k].offset == k * sessionSize
  {
    if k > 0 {
      OffsetsUpTo(ss, sessionSize, k - 1);
      assert ss[k - 1].size == sessionSize;
      OneMore(k - 1, sessionSize);
    }
    PrefixAt(ss, sessionSize, k);
  }

  lemma OffsetsAreMultiples(ss: seq<CopySegment>, volumeSize: nat, sessionSize: nat, k: nat)
    requires TilesVolume(ss, volumeSize, sessionSize) && k < |ss|
    ensures ss[k].offset == k * sessionSize
    ensures k < |ss| - 1 ==> ss[k].offset + ss[k].size == (k + 1) * sessionSize < volumeSize
    ensures k == |ss| - 1 ==> ss[k].offset + ss[k].size == volumeSize
  {
    OffsetsUpTo(ss, sessionSize, k);
    OneMore(k, sessionSize);
    if k < |ss| - 1 {
      OffsetsUpTo(ss, sessionSize, |ss| - 1);
      MulMonotone(k + 1, |ss| - 1, sessionSize);
    }
  }

  lemma SplitIsNoLonger(a: seq<CopySegment>, b: seq<CopySegment>, volumeSize: nat, sessionSize: nat)
    requires TilesVolume(a, volumeSize, sessionSize) && TilesVolume(b, volumeSize, sessionSize)
    ensures |a| <= |b|
  {
    if |a| > |b| > 0 {
      OffsetsAreMultiples(a, volumeSize, sessionSize, |b| - 1);
      OffsetsAreMultiples(b, volumeSize, sessionSize, |b| - 1);
    }
  }

  // A volume can be tiled in one way only: the backup task and the resource manager, which split
  // it independently, agree on every size.
  lemma SplitIsUnique(a: seq<CopySegment>, b: seq<CopySegment>, volumeSize: nat, sessionSize: nat)
    requires TilesVolume(a, volumeSize, sessionSize) && TilesVolume(b, volumeSize, sessionSize)
    ensures a == b
  {
    SplitIsNoLonger(a, b, volumeSize, sessionSize);
    SplitIsNoLonger(b, a, volumeSize, sessionSize);
    forall k | 0 <= k < |a| ensures a[k] == b[k] {
      OffsetsAreMultiples(a, volumeSize, sessionSize, k);
      OffsetsAreMultiples(b, volumeSize, sessionSize, k);
      PrefixAt(a, sessionSize, k);
      PrefixAt(b, sessionSize, k);
    }
  }

  // ---------------------------------------------------------------- session into blocks

  function Min(a: nat, b: nat): nat { if a < b then a else b }

  function BlockAt(bytes: seq<byte>, blockSize: nat, i: nat): Block {
    var from, to := i * blockSize, (i + 1) * blockSize;
    bytes[Min(from, |bytes|)..Min(Min(from, |bytes|) + blockSize, |bytes|)]
  }

  // The bytes of a session block by block; only the last block may be short.
  function Blocks(bytes: seq<byte>, blockSize: nat): (r: seq<Block>)
    requires blockSize > 0
    ensures |r| == TotalBlocks(|bytes|, blockSize)
  {
    seq(TotalBlocks(|bytes|, blockSize),
        i requires 0 <= i < TotalBlocks(|bytes|, blockSize) => BlockAt(bytes, blockSize, i))
  }

  function Join(blocks: seq<Block>): seq<byte> {
    if blocks == [] then [] else Join(blocks[..|blocks| - 1]) + blocks[|blocks| - 1]
  }

  // All blocks but the last are full.
  ghost predicate Aligned(blocks: seq<Block>, blockSize: nat) {
    && (forall i :: 0 <= i < |blocks| - 1 ==> |blocks[i]| == blockSize)
    && (forall i :: 0 <= i < |blocks| ==> 0 < |blocks[i]| <= blockSize)
  }

  lemma BlocksAligned(bytes: seq<byte>, blockSize: nat)
    requires blockSize > 0
    ensures Aligned(Blocks(bytes, blockSize), blockSize)
    ensures forall i :: 0 <= i < |Blocks(bytes, blockSize)| ==>
              && i * blockSize < |bytes|
              && Blocks(bytes, blockSize)[i] == bytes[i * blockSize..Min(i * blockSize + blockSize, |bytes|)]
  {
    BlocksCover(|bytes|, blockSize);
    var n := TotalBlocks(|bytes|, blockSize);
    forall i | 0 <= i < n
      ensures i * blockSize < |bytes|
      ensures i < n - 1 ==> i * blockSize + blockSize <= |bytes|
    {
      MulMonotone(i, n - 1, blockSize);
      if i < n - 1 { MulMonotone(i + 1, n - 1, blockSize); OneMore(i, blockSize); }
    }
  }

  lemma JoinLast(blocks: seq<Block>, k: nat)
    requires 0 < k <= |blocks|
    ensures Join(blocks[..k]) == Join(blocks[..k - 1]) + blocks[k - 1]
  {
    assert blocks[..k][..k - 1] == blocks[..k - 1];
  }

  lemma BlockIs(bytes: seq<byte>, blockSize: nat, i: nat)
    requires blockSize > 0 && i < TotalBlocks(|bytes|, blockSize)
    ensures i * blockSize < |bytes| && i * blockSize + blockSize == (i + 1) * blockSize
    ensures Blocks(bytes, blockSize)[i] == bytes[i * blockSize..Min((i + 1) * blockSize, |bytes|)]
  {
    BlocksCover(|bytes|, blockSize);
    MulMonotone(i, TotalBlocks(|bytes|, blockSize) - 1, blockSize);
    OneMore(i, blockSize);
  }

  lemma TakeMore(bytes: seq<byte>, from: nat, to: nat)
    requires from <= to <= |bytes|
    ensures bytes[..from] + bytes[from..to] == bytes[..to]
  {}

  lemma {:induction false} JoinPrefix(bytes: seq<byte>, blockSize: nat, k: nat)
    requires blockSize > 0 && k <= TotalBlocks(|bytes|, blockSize)
    ensures Join(Blocks(bytes, blockSize)[..k]) == bytes[..Min(k * blockSize, |bytes|)]
  {
    if k > 0 {
      JoinPrefix(bytes, blockSize, k - 1);
      JoinLast(Blocks(bytes, blockSize), k);
      BlockIs(bytes, blockSize, k - 1);
      TakeMore(bytes, (k - 1) * blockSize, Min(k * blockSize, |bytes|));
    }
  }

  // Splitting into blocks loses nothing.
  lemma JoinBlocks(bytes: seq<byte>, blockSize: nat)
    requires blockSize > 0
    ensures Join(Blocks(bytes, blockSize)) == bytes
  {
    BlocksCover(|bytes|, blockSize);
    JoinPrefix(bytes, blockSize, TotalBlocks(|bytes|, blockSize));
    var blocks := Blocks(bytes, blockSize);
    assert blocks[..|blocks|] == blocks;
  }

  lemma {:induction false} JoinSplit(blocks: seq<Block>, k: nat)
    requires k <= |blocks|
    ensures Join(blocks) == Join(blocks[..k]) + Join(blocks[k..])
    decreases |blocks|
  {
    var last := |blocks| - 1;
    if k == |blocks| {
      assert blocks[..k] == blocks;
    } else {
      JoinSplit(blocks[..last], k);
      assert blocks[..last][..k] == blocks[..k];
      assert blocks[k..][..|blocks[k..]| - 1] == blocks[..last][k..];
    }
  }

  lemma {:induction false} JoinLength(blocks: seq<Block>, blockSize: nat, k: nat)
    requires Aligned(blocks, blockSize) && k < |blocks|
    ensures |Join(blocks[..k])| == k * blockSize
  {
    if k > 0 {
      JoinLength(blocks, blockSize, k - 1);
      assert blocks[..k][..k - 1] == blocks[..k - 1];
    }
  }

  function Splice(file: seq<byte>, offset: nat, data: Block): seq<byte>
    requires offset + |data| <= |file|
  {
    file[..offset] + data + file[offset + |data|..]
  }

  lemma SpliceMiddle(before: seq<byte>, block: Block, after: seq<byte>, data: Block)
    requires |data| == |block|
    ensures var whole := before + block + after;
      && whole[|before|..|before| + |data|] == block
      && Splice(whole, |before|, data) == before + data + after
  {}

  lemma JoinAround(blocks: seq<Block>, i: nat)
    requires i < |blocks|
    ensures Join(blocks) == Join(blocks[..i]) + blocks[i] + Join(blocks[i + 1..])
  {
    JoinSplit(blocks, i + 1);
    assert blocks[..i + 1][..i] == blocks[..i];
  }

  // Replacing block i of a session is writing its bytes at i * blockSize.
  lemma StoreIsSplice(blocks: seq<Block>, blockSize: nat, i: nat, data: Block)
    requires Aligned(blocks, blockSize) && i < |blocks| && |data| == |blocks[i]|
    ensures i * blockSize + |data| <= |Join(blocks)|
    ensures Join(blocks)[i * blockSize..i * blockSize + |data|] == blocks[i]
    ensures Join(blocks[i := data]) == Splice(Join(blocks), i * blockSize, data)
  {
    JoinAround(blocks, i);
    JoinLength(blocks, blockSize, i);
    var blocks' := blocks[i := data];
    JoinAround(blocks', i);
    assert blocks'[..i] == blocks[..i] && blocks'[i + 1..] == blocks[i + 1..];
    SpliceMiddle(Join(blocks[..i]), blocks[i], Join(blocks[i + 1..]), data);
  }
}
