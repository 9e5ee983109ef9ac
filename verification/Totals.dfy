/** Sums over the blocks of a session. */
module Totals {
  import opened Common
  import opened Pipeline
  import opened Stages

  // What is summed over the blocks: blocks the reader has taken up, bytes and blocks read, blocks taken off
  // the hashing queue and off the write queue, blocks lost, bytes charged to the writer, bytes the writer has
  // dealt with, bytes charged and neither written nor in the writer's hands, all bytes, and the steps a block
  // may still cause.
  datatype Kind =
    | BlocksTaken | BytesRead | BlocksRead | BlocksPopped | BlocksFetched | BlocksLost
    | BytesCharged | BytesDone | BytesPending | AllBytes | StepsLeft

  function Weight(c: Config, k: Kind, l: Loc, i: nat): nat {
    match k
    case BlocksTaken => if l.Todo? then 0 else 1
    case BlocksFetched => if l.AtWriter? || l.Written? || l.Lost? then 1 else 0
    case BlocksLost => if l.Lost? then 1 else 0
    case BytesRead => if Unread(l) || l.AtReader? then 0 else Len(c, i)
    case BlocksRead => if Unread(l) || l.AtReader? then 0 else 1
    case BlocksPopped => if Unread(l) || l.AtReader? || l.AtHashQueue? then 0 else 1
    case BytesCharged => if l.AtWriteQueue? || l.AtWriter? || l.Written? || l.Lost? then Len(c, i) else 0
    case BytesDone => if l.Written? then Len(c, i) else 0
    case BytesPending => if l.AtWriteQueue? || l.AtWriter? || l.Lost? then Len(c, i) else 0
    case AllBytes => Len(c, i)
    case StepsLeft =>
      match l
      case Todo => 60 case AtReader => 45 case AtHashQueue => 40 case AtWorker(_) => 30
      case AtWriteQueue => 20 case AtWriter => 12
      case _ => 0
  }

  function Total(c: Config, k: Kind, loc: seq<Loc>): nat {
    if loc == [] then 0 else Total(c, k, loc[..|loc| - 1]) + Weight(c, k, loc[|loc| - 1], |loc| - 1)
  }

  lemma {:induction false} TotalMove(c: Config, k: Kind, loc: seq<Loc>, i: nat, to: Loc)
    requires i < |loc|
    ensures Total(c, k, loc[i := to]) == Total(c, k, loc) - Weight(c, k, loc[i], i) + Weight(c, k, to, i)
    ensures Total(c, k, loc) >= Weight(c, k, loc[i], i)
    decreases |loc|
  {
    var last := |loc| - 1;
    if i == last {
      assert loc[i := to][..last] == loc[..last];
    } else {
      TotalMove(c, k, loc[..last], i, to);
      assert loc[i := to][..last] == loc[..last][i := to];
    }
  }

  lemma {:induction false} TotalAgrees(c: Config, k: Kind, k': Kind, loc: seq<Loc>)
    requires forall i :: 0 <= i < |loc| ==> Weight(c, k, loc[i], i) == Weight(c, k', loc[i], i)
    ensures Total(c, k, loc) == Total(c, k', loc)
    decreases |loc|
  {
    if loc != [] { TotalAgrees(c, k, k', loc[..|loc| - 1]); }
  }

  lemma {:induction false} ChargedSplits(c: Config, loc: seq<Loc>)
    ensures Total(c, BytesCharged, loc) == Total(c, BytesDone, loc) + Total(c, BytesPending, loc)
    decreases |loc|
  {
    if loc != [] { ChargedSplits(c, loc[..|loc| - 1]); }
  }

  // Every block but the last is full; the last one ends where the session ends.
  lemma BlockEnds(c: Config, i: nat)
    requires ValidConfig(c) && i < c.n
    ensures i < c.n - 1 ==> Len(c, i) == c.blockSize && (i + 1) * c.blockSize == i * c.blockSize + c.blockSize
    ensures i == c.n - 1 ==> i * c.blockSize + Len(c, i) == c.size
    ensures 0 < Len(c, i) <= c.blockSize
  {
    BlocksCover(c.size, c.blockSize);
    if i < c.n - 1 {
      MulMonotone(i + 1, c.n - 1, c.blockSize);
    }
    assert c.n * c.blockSize == (c.n - 1) * c.blockSize + c.blockSize;
    assert (i + 1) * c.blockSize == i * c.blockSize + c.blockSize;
  }

  lemma {:induction false} AllBytesPrefix(c: Config, loc: seq<Loc>)
    requires ValidConfig(c) && |loc| <= c.n
    ensures Total(c, AllBytes, loc) == if |loc| == c.n then c.size else |loc| * c.blockSize
    decreases |loc|
  {
    if loc != [] {
      AllBytesPrefix(c, loc[..|loc| - 1]);
      BlockEnds(c, |loc| - 1);
    }
  }

  // ---------------------------------------------------------------- restored counters

  // The bytes of the blocks below n that x names.
  ghost function BytesOf(c: Config, x: set<nat>, n: nat): nat {
    if n == 0 then 0 else BytesOf(c, x, n - 1) + (if n - 1 in x then Len(c, n - 1) else 0)
  }

  lemma {:induction false} FullBlocks(c: Config, x: set<nat>, n: nat)
    requires ValidConfig(c) && n <= c.n - 1
    ensures BytesOf(c, x, n) == |Below(x, n)| * c.blockSize
  {
    if n > 0 {
      FullBlocks(c, x, n - 1);
      BlockEnds(c, n - 1);
      BelowGrows(x, n);
      OneMore(|Below(x, n - 1)|, c.blockSize);
    } else {
      assert Below(x, 0) == {};
    }
  }

  lemma {:induction false} BelowAtMost(x: set<nat>, n: nat)
    ensures |Below(x, n)| <= n
    ensures |Below(x, n)| == n <==> forall i :: 0 <= i < n ==> i in x
  {
    if n > 0 {
      BelowGrows(x, n);
      BelowAtMost(x, n - 1);
    } else {
      assert Below(x, 0) == {};
    }
  }

  // The last block apart from the others.
  lemma LastApart(c: Config, x: set<nat>)
    requires ValidConfig(c) && forall i :: i in x ==> i < c.n
    ensures var last := c.n - 1;
      && |x| == |Below(x, last)| + (if last in x then 1 else 0) && |Below(x, last)| <= last && |x| <= c.n
      && BytesOf(c, x, c.n) == |Below(x, last)| * c.blockSize + (if last in x then Len(c, last) else 0)
  {
    assert Below(x, c.n) == x;
    BelowGrows(x, c.n);
    BelowAtMost(x, c.n);
    BelowAtMost(x, c.n - 1);
    FullBlocks(c, x, c.n - 1);
  }

  // Not a short last block without all others.
  ghost predicate CountsExactly(c: Config, x: set<nat>)
    requires c.n > 0
  {
    |x| == c.n || c.n - 1 !in x || Len(c, c.n - 1) == c.blockSize
  }

  // The restored byte count never exceeds the session, and it is exact unless a short last
  // block is among the restored ones while some other block is not.
  lemma RestoredBytesExact(c: Config, x: set<nat>)
    requires ValidConfig(c) && forall i :: i in x ==> i < c.n
    ensures RestoredBytes(c, |x|) <= c.size
    ensures RestoredBytes(c, |x|) == BytesOf(c, x, c.n) <==> CountsExactly(c, x)
  {
    var last := c.n - 1;
    LastApart(c, x);
    BlockEnds(c, last);
    OneMore(|Below(x, last)|, c.blockSize);
    MulMonotone(|Below(x, last)|, last, c.blockSize);
    if |x| < c.n { MulMonotone(|x|, last, c.blockSize); }
  }
}
