/** The session counters as exact functions of where the blocks are. */
module Counting {
  import opened Common
  import opened Pipeline
  import opened Frames
  import opened Stages
  import opened Totals
  import W = WorkerSums
  import Handshake

  // The block the writer has written but not counted yet.
  function Uncounted(c: Config, wr: WriterState): nat {
    if Finishing(wr.pc) then Len(c, wr.pc.b.index) else if wr.pc.NCount? then Len(c, wr.pc.i) else 0
  }

  ghost predicate BytesReadExact(c: Config, s: State) {
    && s.cnt.bytesToRead == s.hist.start.bytesToRead
    && s.cnt.bytesRead == s.hist.start.bytesRead + Total(c, BytesRead, s.hist.loc)
                          + (if s.rd.pc.RPush? then Len(c, s.rd.cur) else 0)
  }

  ghost predicate ToHashExact(c: Config, s: State) {
    s.cnt.blocksToHash == s.hist.start.blocksToHash
      + (if c.hasher then Total(c, BlocksRead, s.hist.loc) - (if s.rd.pc.RCount? then 1 else 0) else 0)
  }

  ghost predicate HashedExact(c: Config, s: State) {
    s.cnt.blocksHashed == s.hist.start.blocksHashed
      + (if c.hasher then Total(c, BlocksPopped, s.hist.loc) - W.Sum(c, W.Unhashed, s.hs.ws) else 0)
  }

  ghost predicate ToWriteExact(c: Config, s: State) {
    s.cnt.bytesToWrite == s.hist.start.bytesToWrite + Total(c, BytesCharged, s.hist.loc)
                          + W.Sum(c, W.Charged, s.hs.ws)
                          - (if !c.hasher && s.rd.pc.RCount? then Len(c, s.rd.cur) else 0)
  }

  ghost predicate WrittenExact(c: Config, s: State) {
    s.cnt.bytesWritten == s.hist.start.bytesWritten + Total(c, BytesDone, s.hist.loc) - Uncounted(c, s.wr)
  }

  // What a run starts from.
  ghost predicate StartExact(c: Config, s: State) {
    && s.hist.start.bytesToRead == c.size
    && s.hist.start.bytesRead == RestoredBytes(c, |s.hist.restored|)
    && s.hist.start.blocksToHash == s.hist.start.blocksHashed == (if c.hasher then |s.hist.restored| else 0)
    && s.hist.start.bytesToWrite == s.hist.start.bytesWritten == RestoredBytes(c, |s.hist.restoredWritten|)
  }

  ghost predicate Inv(c: Config, s: State) {
    && Sized(c, s) && StartExact(c, s)
    && BytesReadExact(c, s) && ToHashExact(c, s) && HashedExact(c, s) && ToWriteExact(c, s) && WrittenExact(c, s)
  }

  // The block a step moves, and how the sums follow.
  ghost predicate Moves(c: Config, s: State, s': State, i: nat, to: Loc)
    requires Sized(c, s)
  {
    && i < c.n && s'.hist.loc == s.hist.loc[i := to]
    && s'.hist.start == s.hist.start && s'.hist.restored == s.hist.restored
    && s'.hist.restoredWritten == s.hist.restoredWritten
  }

  lemma SumsFollow(c: Config, s: State, s': State, i: nat, to: Loc)
    requires Sized(c, s) && Moves(c, s, s', i, to)
    ensures Total(c, BytesRead, s'.hist.loc) ==
            Total(c, BytesRead, s.hist.loc) - Weight(c, BytesRead, s.hist.loc[i], i) + Weight(c, BytesRead, to, i)
    ensures Total(c, BlocksRead, s'.hist.loc) ==
            Total(c, BlocksRead, s.hist.loc) - Weight(c, BlocksRead, s.hist.loc[i], i) + Weight(c, BlocksRead, to, i)
    ensures Total(c, BlocksPopped, s'.hist.loc) ==
            Total(c, BlocksPopped, s.hist.loc) - Weight(c, BlocksPopped, s.hist.loc[i], i)
            + Weight(c, BlocksPopped, to, i)
    ensures Total(c, BytesCharged, s'.hist.loc) ==
            Total(c, BytesCharged, s.hist.loc) - Weight(c, BytesCharged, s.hist.loc[i], i)
            + Weight(c, BytesCharged, to, i)
    ensures Total(c, BytesDone, s'.hist.loc) ==
            Total(c, BytesDone, s.hist.loc) - Weight(c, BytesDone, s.hist.loc[i], i) + Weight(c, BytesDone, to, i)
  {
    TotalMove(c, BytesRead, s.hist.loc, i, to);
    TotalMove(c, BlocksRead, s.hist.loc, i, to);
    TotalMove(c, BlocksPopped, s.hist.loc, i, to);
    TotalMove(c, BytesCharged, s.hist.loc, i, to);
    TotalMove(c, BytesDone, s.hist.loc, i, to);
  }

  lemma ReaderTakes(c: Config, s: State, fail: bool)
    requires Inv(c, s) && ReaderCan(c, s, fail)
    requires s.rd.pc.RFetch? && FirstFree(s.pool.alloc) < ALLOCATOR_BLOCKS && s.hist.loc[s.rd.cur].Todo?
    ensures Inv(c, ReaderStep(c, s, fail))
  {
    ReaderSizes(c, s, fail);
    SumsFollow(c, s, ReaderStep(c, s, fail), s.rd.cur, AtReader);
  }

  lemma ReaderPushes(c: Config, s: State, fail: bool)
    requires Inv(c, s) && ReaderCan(c, s, fail)
    requires s.rd.pc.RPush? && s.hist.loc[s.rd.cur].AtReader? && !(if c.hasher then s.hq else s.wq).finished
    ensures Inv(c, ReaderStep(c, s, fail))
  {
    ReaderSizes(c, s, fail);
    SumsFollow(c, s, ReaderStep(c, s, fail), s.rd.cur, if c.hasher then AtHashQueue else AtWriteQueue);
  }

  lemma ReaderStays(c: Config, s: State, fail: bool)
    requires Inv(c, s) && ReaderCan(c, s, fail)
    requires !s.rd.pc.RPush? && !(s.rd.pc.RFetch? && FirstFree(s.pool.alloc) < ALLOCATOR_BLOCKS)
    ensures Inv(c, ReaderStep(c, s, fail))
  {
    ReaderSizes(c, s, fail);
    var s' := ReaderStep(c, s, fail);
    assert s'.hist == s.hist && s'.hs == s.hs && s'.wr == s.wr;
  }

  lemma ReaderKeeps(c: Config, s: State, fail: bool)
    requires Inv(c, s) && Stages.Inv(c, s) && Handshake.Inv(c, s) && ReaderCan(c, s, fail)
    ensures Inv(c, ReaderStep(c, s, fail))
  {
    ReaderSizes(c, s, fail);
    if s.rd.pc.RPush? {
      ReaderPushes(c, s, fail);
    } else if s.rd.pc.RFetch? && FirstFree(s.pool.alloc) < ALLOCATOR_BLOCKS {
      ReaderTakes(c, s, fail);
    } else {
      ReaderStays(c, s, fail);
    }
  }

  lemma WorkerPops(c: Config, s: State, j: nat)
    requires Inv(c, s) && WorkerCan(c, s, j) && c.hasher
    requires s.hs.ws[j].WPop? && s.hq.items != []
    requires s.hist.loc[s.hq.items[0].index].AtHashQueue?
    ensures Inv(c, WorkerStep(c, s, j))
  {
    WorkerSizes(c, s, j);
    var b := s.hq.items[0];
    W.SumUpdate(c, W.Unhashed, s.hs.ws, j, WHash(b));
    W.SumUpdate(c, W.Charged, s.hs.ws, j, WHash(b));
    SumsFollow(c, s, WorkerStep(c, s, j), b.index, AtWorker(j));
  }

  lemma WorkerDrops(c: Config, s: State, j: nat)
    requires Inv(c, s) && WorkerCan(c, s, j) && c.hasher
    requires s.hs.ws[j].WFree? && s.hist.loc[s.hs.ws[j].b.index].AtWorker?
    ensures Inv(c, WorkerStep(c, s, j))
  {
    WorkerSizes(c, s, j);
    var b := s.hs.ws[j].b;
    W.SumUpdate(c, W.Unhashed, s.hs.ws, j, WLoad(b.index));
    W.SumUpdate(c, W.Charged, s.hs.ws, j, WLoad(b.index));
    SumsFollow(c, s, WorkerStep(c, s, j), b.index, Dropped);
  }

  lemma WorkerPushes(c: Config, s: State, j: nat)
    requires Inv(c, s) && WorkerCan(c, s, j) && c.hasher && !s.wq.finished
    requires s.hs.ws[j].WPush? && s.hist.loc[s.hs.ws[j].b.index].AtWorker?
    ensures Inv(c, WorkerStep(c, s, j))
  {
    WorkerSizes(c, s, j);
    W.SumUpdate(c, W.Unhashed, s.hs.ws, j, WLoop);
    W.SumUpdate(c, W.Charged, s.hs.ws, j, WLoop);
    SumsFollow(c, s, WorkerStep(c, s, j), s.hs.ws[j].b.index, AtWriteQueue);
  }

  lemma WorkerStays(c: Config, s: State, j: nat)
    requires Inv(c, s) && WorkerCan(c, s, j) && c.hasher
    requires !(s.hs.ws[j].WPop? && s.hq.items != []) && !s.hs.ws[j].WFree? && !s.hs.ws[j].WPush?
    ensures Inv(c, WorkerStep(c, s, j))
  {
    WorkerSizes(c, s, j);
    var s' := WorkerStep(c, s, j);
    var w' := s'.hs.ws[j];
    assert s'.hs.ws == s.hs.ws[j := w'] && s'.rd == s.rd && s'.wr == s.wr;
    assert s'.hist.loc == s.hist.loc && s'.hist.start == s.hist.start;
    W.SumUpdate(c, W.Unhashed, s.hs.ws, j, w');
    W.SumUpdate(c, W.Charged, s.hs.ws, j, w');
  }

  lemma WorkerKeeps(c: Config, s: State, j: nat)
    requires Inv(c, s) && Stages.Inv(c, s) && Handshake.Inv(c, s) && WorkerCan(c, s, j) && c.hasher
    ensures Inv(c, WorkerStep(c, s, j))
  {
    if s.hs.ws[j].WPop? && s.hq.items != [] {
      WorkerPops(c, s, j);
    } else if s.hs.ws[j].WFree? {
      WorkerDrops(c, s, j);
    } else if s.hs.ws[j].WPush? {
      assert !s.wq.finished;
      WorkerPushes(c, s, j);
    } else {
      WorkerStays(c, s, j);
    }
  }

  lemma WriterPops(c: Config, s: State, fail: bool, junk: Block)
    requires Inv(c, s) && WriterCan(c, s)
    requires s.wr.pc.NPop? && s.wq.items != [] && s.hist.loc[s.wq.items[0].index].AtWriteQueue?
    ensures Inv(c, WriterStep(c, s, fail, junk))
  {
    WriterSizes(c, s, fail, junk);
    SumsFollow(c, s, WriterStep(c, s, fail, junk), s.wq.items[0].index, AtWriter);
  }

  // A block that leaves the writer is written but not counted yet, or lost.
  lemma BlockLeavesWriter(c: Config, s: State, s': State, i: nat, to: Loc)
    requires Inv(c, s) && Sized(c, s') && Moves(c, s, s', i, to)
    requires s.hist.loc[i].AtWriter? && (to.Written? || to.Lost?)
    requires s'.hs == s.hs && s'.rd == s.rd && s'.cnt == s.cnt
    requires Uncounted(c, s.wr) == 0 && Uncounted(c, s'.wr) == if to.Lost? then 0 else Len(c, i)
    ensures Inv(c, s')
  {
    SumsFollow(c, s, s', i, to);
  }

  lemma WriterWrites(c: Config, s: State, fail: bool, junk: Block)
    requires Inv(c, s) && WriterCan(c, s)
    requires s.wr.pc.NGot? && s.hist.loc[s.wr.pc.b.index].AtWriter?
    ensures Inv(c, WriterStep(c, s, fail, junk))
  {
    WriterSizes(c, s, fail, junk);
    BlockLeavesWriter(c, s, WriterStep(c, s, fail, junk), s.wr.pc.b.index, if s.wr.failed then Lost else Written);
  }

  lemma WriterMovesNothing(c: Config, s: State, fail: bool, junk: Block)
    requires Inv(c, s) && WriterCan(c, s)
    requires !s.wr.pc.NGot? && !(s.wr.pc.NPop? && s.wq.items != [])
    ensures Inv(c, WriterStep(c, s, fail, junk))
  {
    WriterSizes(c, s, fail, junk);
    var s' := WriterStep(c, s, fail, junk);
    assert s'.hist == s.hist && s'.hs == s.hs && s'.rd == s.rd;
    assert s'.cnt == s.cnt.(bytesWritten := s'.cnt.bytesWritten);
  }

  lemma WriterKeeps(c: Config, s: State, fail: bool, junk: Block)
    requires Inv(c, s) && Stages.Inv(c, s) && WriterCan(c, s)
    ensures Inv(c, WriterStep(c, s, fail, junk))
  {
    if s.wr.pc.NGot? {
      WriterWrites(c, s, fail, junk);
    } else if s.wr.pc.NPop? && s.wq.items != [] {
      WriterPops(c, s, fail, junk);
    } else {
      WriterMovesNothing(c, s, fail, junk);
    }
  }

  lemma ControlKeeps(c: Config, s: State, s': State)
    requires Inv(c, s) && ControlFrame(s, s')
    ensures Inv(c, s')
  {}
}
