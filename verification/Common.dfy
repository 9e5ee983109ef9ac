/** Values shared by every model: bytes, blocks, digests and the constants of
    include/VolumeProtector.h. */
module Common {

  datatype Option<+T> = None | Some(value: T)

  newtype byte = x: int | 0 <= x < 256

  type Block = seq<byte>

  type Digest = seq<byte>

  const CHECKSUM_SIZE := 32

  const ALLOCATOR_BLOCKS := 32

  const QUEUE_SIZE := 64

  const TWO32 := 0x1_0000_0000

  const TWO64 := 0x1_0000_0000_0000_0000

  // What memset leaves in a freshly allocated checksum table.
  const ZERO_DIGEST: Digest := seq(CHECKSUM_SIZE, _ => 0)

  lemma MulMonotone(a: nat, b: nat, m: nat)
    requires a <= b
    ensures a * m <= b * m
  {}

  lemma OneMore(k: nat, m: nat)
    ensures (k + 1) * m == k * m + m
  {}

  lemma Euclid(x: nat, m: nat)
    requires m > 0
    ensures x == (x / m) * m + x % m && x % m < m
  {}

  lemma QuotientIs(x: nat, m: nat, q: nat)
    requires q * m <= x < q * m + m
    ensures x / m == q && x % m == x - q * m
  {
    var p := x / m;
    Euclid(x, m);
    if p < q {
      MulMonotone(p + 1, q, m);
      OneMore(p, m);
    } else if q < p {
      MulMonotone(q + 1, p, m);
      OneMore(q, m);
    }
  }

  // VolumeTaskSession::TotalBlocks.
  function TotalBlocks(size: nat, blockSize: nat): nat
    requires blockSize > 0
  {
    size / blockSize + (if size % blockSize != 0 then 1 else 0)
  }

  lemma BlocksCover(size: nat, blockSize: nat)
    requires blockSize > 0
    ensures var n := TotalBlocks(size, blockSize);
      && size <= n * blockSize && (n > 0 ==> (n - 1) * blockSize < size) && (n == 0 <==> size == 0)
  {
    var q := size / blockSize;
    Euclid(size, blockSize);
    OneMore(q, blockSize);
    if q > 0 { OneMore(q - 1, blockSize); }
  }

  ghost function Below(x: set<nat>, n: nat): set<nat> { set i | i in x && i < n }

  lemma BelowGrows(x: set<nat>, n: nat)
    requires n > 0
    ensures |Below(x, n)| == |Below(x, n - 1)| + (if n - 1 in x then 1 else 0)
  {
    if n - 1 in x {
      assert Below(x, n) == Below(x, n - 1) + {n - 1};
    } else {
      assert Below(x, n) == Below(x, n - 1);
    }
  }

  ghost predicate AllZero(b: Block) {
    forall k :: 0 <= k < |b| ==> b[k] == 0
  }

  // The writer's test: the first byte is not zero, or comparing the buffer with itself
  // shifted by one byte finds a difference.
  predicate NeedToWrite(skipEmptyBlock: bool, b: Block) {
    || !skipEmptyBlock
    || |b| == 0
    || b[0] != 0
    || exists k :: 0 <= k < |b| - 1 && b[k] != b[k + 1]
  }

  lemma {:induction false} ShiftedEqualPrefix(b: Block, k: nat)
    requires k < |b| && b[0] == 0
    requires forall i :: 0 <= i < |b| - 1 ==> b[i] == b[i + 1]
    ensures b[k] == 0
  {
    if k > 0 {
      ShiftedEqualPrefix(b, k - 1);
      assert b[k - 1] == b[k - 1 + 1];
    }
  }

  // The shifted comparison decides exactly whether a buffer is all zero.
  lemma NeedToWriteIffNotZero(b: Block)
    requires |b| > 0
    ensures NeedToWrite(false, b)
    ensures NeedToWrite(true, b) <==> !AllZero(b)
  {
    if !NeedToWrite(true, b) {
      forall k | 0 <= k < |b| ensures b[k] == 0 {
        ShiftedEqualPrefix(b, k);
      }
    }
  }
}
