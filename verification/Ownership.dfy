/** While no Write has failed, every allocated buffer has exactly one owner, and what was read
    into it stays there until it is freed. */
module Ownership {
  import opened Common
  import opened Pipeline
  import opened Frames
  import opened Stages
  import Handshake

  // The item's slot is its own and holds what the source held.
  predicate Owned(c: Config, p: Pool, b: Item)
    requires |p.holder| == |p.buf| == ALLOCATOR_BLOCKS && |c.vol| == c.n
  {
    InRange(c, b) && p.holder[b.slot] == b.index && p.buf[b.slot] == c.vol[b.index]
  }

  ghost predicate QueueOwned(c: Config, p: Pool, q: seq<Item>)
    requires |p.holder| == |p.buf| == ALLOCATOR_BLOCKS && |c.vol| == c.n
  {
    forall k :: 0 <= k < |q| ==> Owned(c, p, q[k])
  }

  ghost predicate WorkersOwned(c: Config, p: Pool, ws: seq<WorkerPc>)
    requires |p.holder| == |p.buf| == ALLOCATOR_BLOCKS && |c.vol| == c.n
  {
    forall j :: 0 <= j < |ws| && HasItem(ws[j]) ==> Owned(c, p, ws[j].b)
  }

  ghost predicate ReaderOwned(c: Config, p: Pool, rd: ReaderState)
    requires |p.holder| == |p.buf| == ALLOCATOR_BLOCKS && |c.vol| == c.n
  {
    && (rd.pc.RRead? ==> rd.pc.slot < ALLOCATOR_BLOCKS && p.holder[rd.pc.slot] == rd.cur)
    && (rd.pc.RPush? ==> Owned(c, p, Item(rd.pc.slot, rd.cur)))
  }

  ghost predicate WriterOwned(c: Config, p: Pool, wr: WriterState)
    requires |p.holder| == |p.buf| == ALLOCATOR_BLOCKS && |c.vol| == c.n
  {
    && (wr.pc.NGot? ==> Owned(c, p, wr.pc.b))
    && (Finishing(wr.pc) ==> InRange(c, wr.pc.b) && p.holder[wr.pc.b.slot] == wr.pc.b.index)
  }

  // A slot is allocated exactly while a block in flight holds it, and no block holds two.
  ghost predicate SlotsAccounted(c: Config, s: State)
    requires Sized(c, s)
  {
    && (forall k :: 0 <= k < ALLOCATOR_BLOCKS ==>
          var i := s.pool.holder[k];
          && (s.pool.alloc[k] <==> i >= 0)
          && (i >= 0 ==> i < c.n && (Inner(s.hist.loc[i]) || (Finishing(s.wr.pc) && s.wr.pc.b == Item(k, i)))))
    && forall k, l :: 0 <= k < l < ALLOCATOR_BLOCKS && s.pool.holder[k] >= 0 ==> s.pool.holder[k] != s.pool.holder[l]
  }

  ghost predicate Inv(c: Config, s: State) {
    && Sized(c, s)
    && (!s.wr.failed ==>
          && ReaderOwned(c, s.pool, s.rd)
          && QueueOwned(c, s.pool, s.hq.items)
          && WorkersOwned(c, s.pool, s.hs.ws)
          && QueueOwned(c, s.pool, s.wq.items)
          && WriterOwned(c, s.pool, s.wr)
          && SlotsAccounted(c, s))
  }

  // ---------------------------------------------------------------- what a pool operation leaves alone

  // p' differs from p only at `slot`, which is free or held by block i.
  ghost predicate OnlySlot(p: Pool, p': Pool, slot: nat, i: int) {
    && |p.holder| == |p.buf| == |p'.holder| == |p'.buf| == ALLOCATOR_BLOCKS
    && slot < ALLOCATOR_BLOCKS && p.holder[slot] == i
    && forall k :: 0 <= k < ALLOCATOR_BLOCKS && k != slot ==> p'.holder[k] == p.holder[k] && p'.buf[k] == p.buf[k]
  }

  lemma QueueElsewhere(c: Config, loc: seq<Loc>, p: Pool, p': Pool, slot: nat, i: int, q: seq<Item>, at: Loc)
    requires |loc| == |c.vol| == c.n && OnlySlot(p, p', slot, i)
    requires QueueAt(c, loc, q, at) && QueueOwned(c, p, q)
    requires 0 <= i < c.n ==> loc[i] != at
    ensures QueueOwned(c, p', q)
  {}

  lemma WorkersElsewhere(c: Config, loc: seq<Loc>, p: Pool, p': Pool, slot: nat, i: int, ws: seq<WorkerPc>)
    requires |loc| == |c.vol| == c.n && OnlySlot(p, p', slot, i)
    requires WorkersAt(c, loc, ws) && WorkersOwned(c, p, ws)
    requires 0 <= i < c.n ==> !loc[i].AtWorker?
    ensures WorkersOwned(c, p', ws)
  {}

  // ---------------------------------------------------------------- steps

  lemma ReaderKeepsItems(c: Config, s: State, fail: bool)
    requires Inv(c, s) && Stages.Inv(c, s) && Handshake.Inv(c, s) && ReaderCan(c, s, fail) && !s.wr.failed
    requires !s.rd.pc.RPush?
    ensures var s' := ReaderStep(c, s, fail);
      && Sized(c, s') && QueueOwned(c, s'.pool, s'.hq.items) && QueueOwned(c, s'.pool, s'.wq.items)
      && WorkersOwned(c, s'.pool, s'.hs.ws)
  {
    var s' := ReaderStep(c, s, fail);
    ReaderSizes(c, s, fail);
    if s'.pool != s.pool {
      var slot := if s.rd.pc.RFetch? then FirstFree(s.pool.alloc) else s.rd.pc.slot;
      var i := s.pool.holder[slot];
      QueueElsewhere(c, s.hist.loc, s.pool, s'.pool, slot, i, s.hq.items, AtHashQueue);
      QueueElsewhere(c, s.hist.loc, s.pool, s'.pool, slot, i, s.wq.items, AtWriteQueue);
      WorkersElsewhere(c, s.hist.loc, s.pool, s'.pool, slot, i, s.hs.ws);
    }
  }

  lemma SlotsTake(c: Config, s: State, fail: bool)
    requires ReaderCan(c, s, fail) && SlotsAccounted(c, s) && s.rd.pc.RFetch? && s.hist.loc[s.rd.cur].Todo?
    requires Finishing(s.wr.pc) ==> s.wr.pc.b.index < c.n && s.hist.loc[s.wr.pc.b.index].Written?
    ensures var s' := ReaderStep(c, s, fail); Sized(c, s') && SlotsAccounted(c, s')
  {
    ReaderSizes(c, s, fail);
  }

  // A block that is handed on keeps its slot.
  lemma SlotsMove(c: Config, s: State, s': State, i: nat)
    requires Sized(c, s) && Sized(c, s') && SlotsAccounted(c, s) && i < c.n
    requires s'.pool.holder == s.pool.holder && s'.pool.alloc == s.pool.alloc && s'.wr == s.wr
    requires s'.hist.loc == s.hist.loc[i := s'.hist.loc[i]] && Inner(s'.hist.loc[i])
    ensures SlotsAccounted(c, s')
  {}

  lemma ReaderKeepsSlots(c: Config, s: State, fail: bool)
    requires Inv(c, s) && Stages.Inv(c, s) && Handshake.Inv(c, s) && ReaderCan(c, s, fail) && !s.wr.failed
    ensures var s' := ReaderStep(c, s, fail); Sized(c, s') && SlotsAccounted(c, s')
  {
    var s' := ReaderStep(c, s, fail);
    ReaderSizes(c, s, fail);
    match s.rd.pc {
      case RPush(_) =>
        assert !(if c.hasher then s.hq else s.wq).finished;
        SlotsMove(c, s, s', s.rd.cur);
      case RFetch => SlotsTake(c, s, fail);
      case _ =>
        assert s'.pool.holder == s.pool.holder && s'.pool.alloc == s.pool.alloc;
        assert s'.hist == s.hist && s'.wr == s.wr;
    }
  }

  lemma ReaderPushesOwned(c: Config, s: State, fail: bool)
    requires Sized(c, s) && ReaderCan(c, s, fail) && s.rd.pc.RPush? && ReaderOwned(c, s.pool, s.rd)
    requires QueueOwned(c, s.pool, s.hq.items) && QueueOwned(c, s.pool, s.wq.items)
    ensures var s' := ReaderStep(c, s, fail);
      && s'.pool == s.pool && s'.hs == s.hs && s'.wr == s.wr && s'.rd.pc.RCount?
      && QueueOwned(c, s'.pool, s'.hq.items) && QueueOwned(c, s'.pool, s'.wq.items)
  {}

  lemma ReaderKeeps(c: Config, s: State, fail: bool)
    requires Inv(c, s) && Stages.Inv(c, s) && Handshake.Inv(c, s) && ReaderCan(c, s, fail)
    ensures Inv(c, ReaderStep(c, s, fail))
  {
    ReaderSizes(c, s, fail);
    if !s.wr.failed {
      ReaderKeepsSlots(c, s, fail);
      if s.rd.pc.RPush? {
        ReaderPushesOwned(c, s, fail);
      } else {
        ReaderKeepsItems(c, s, fail);
      }
    }
  }

  lemma WorkerKeepsWorkers(c: Config, s: State, j: nat)
    requires WorkerCan(c, s, j) && WorkersAt(c, s.hist.loc, s.hs.ws)
    requires WorkersOwned(c, s.pool, s.hs.ws) && QueueOwned(c, s.pool, s.hq.items)
    ensures var s' := WorkerStep(c, s, j); Sized(c, s') && WorkersOwned(c, s'.pool, s'.hs.ws)
  {
    WorkerSizes(c, s, j);
    var s' := WorkerStep(c, s, j);
    if !s.hs.ws[j].WFree? { assert s'.pool == s.pool; }
  }

  lemma WorkerKeepsSlots(c: Config, s: State, j: nat)
    requires Inv(c, s) && Stages.Inv(c, s) && Handshake.Inv(c, s) && WorkerCan(c, s, j) && c.hasher && !s.wr.failed
    ensures var s' := WorkerStep(c, s, j); Sized(c, s') && SlotsAccounted(c, s')
  {
    WorkerSizes(c, s, j);
    var s' := WorkerStep(c, s, j);
    match s.hs.ws[j] {
      case WPop =>
      case WFree(b) =>
      case WPush(b) => assert !s.wq.finished;
      case _ => assert s'.pool == s.pool && s'.hist == s.hist && s'.wr == s.wr;
    }
  }

  lemma WorkerKeepsItems(c: Config, s: State, j: nat)
    requires WorkerCan(c, s, j) && WorkersAt(c, s.hist.loc, s.hs.ws) && WorkersOwned(c, s.pool, s.hs.ws)
    requires QueueAt(c, s.hist.loc, s.hq.items, AtHashQueue) && QueueOwned(c, s.pool, s.hq.items)
    requires QueueAt(c, s.hist.loc, s.wq.items, AtWriteQueue) && QueueOwned(c, s.pool, s.wq.items)
    ensures var s' := WorkerStep(c, s, j);
      Sized(c, s') && QueueOwned(c, s'.pool, s'.hq.items) && QueueOwned(c, s'.pool, s'.wq.items)
  {
    var s' := WorkerStep(c, s, j);
    WorkerSizes(c, s, j);
    if s.hs.ws[j].WFree? {
      var b := s.hs.ws[j].b;
      QueueElsewhere(c, s.hist.loc, s.pool, s'.pool, b.slot, b.index, s.hq.items, AtHashQueue);
      QueueElsewhere(c, s.hist.loc, s.pool, s'.pool, b.slot, b.index, s.wq.items, AtWriteQueue);
    } else {
      assert s'.pool == s.pool;
    }
  }

  // A worker frees its own block, which neither the reader nor the writer holds.
  lemma WorkerKeepsEnds(c: Config, s: State, j: nat)
    requires WorkerCan(c, s, j) && WorkersAt(c, s.hist.loc, s.hs.ws) && WorkersOwned(c, s.pool, s.hs.ws)
    requires ReaderAt(c, s.hist.loc, s.rd, s.hist.restored) && ReaderOwned(c, s.pool, s.rd)
    requires WriterAt(c, s.hist.loc, s.wr) && WriterOwned(c, s.pool, s.wr)
    ensures var s' := WorkerStep(c, s, j);
      Sized(c, s') && ReaderOwned(c, s'.pool, s'.rd) && WriterOwned(c, s'.pool, s'.wr)
  {
    var s' := WorkerStep(c, s, j);
    WorkerSizes(c, s, j);
    assert s'.rd == s.rd && s'.wr == s.wr;
    if !s.hs.ws[j].WFree? { assert s'.pool == s.pool; }
  }

  lemma WorkerKeeps(c: Config, s: State, j: nat)
    requires Inv(c, s) && Stages.Inv(c, s) && Handshake.Inv(c, s) && WorkerCan(c, s, j) && c.hasher
    ensures Inv(c, WorkerStep(c, s, j))
  {
    WorkerSizes(c, s, j);
    if !s.wr.failed {
      WorkerKeepsWorkers(c, s, j);
      WorkerKeepsItems(c, s, j);
      WorkerKeepsEnds(c, s, j);
      WorkerKeepsSlots(c, s, j);
    }
  }

  lemma WriterMovesOn(c: Config, s: State, s': State, i: nat, to: Loc)
    requires Sized(c, s) && Sized(c, s') && SlotsAccounted(c, s) && i < c.n
    requires s'.pool == s.pool && s'.hist.loc == s.hist.loc[i := to]
    requires Finishing(s.wr.pc) ==> s'.wr.pc == s.wr.pc && to.AtWriter?
    requires to.AtWriter? || (Finishing(s'.wr.pc) && s'.wr.pc.b.index == i && s'.wr.pc.b.slot < ALLOCATOR_BLOCKS
                              && s.pool.holder[s'.wr.pc.b.slot] == i)
    ensures SlotsAccounted(c, s')
  {}

  lemma WriterKeepsSlots(c: Config, s: State, fail: bool, junk: Block)
    requires Sized(c, s) && SlotsAccounted(c, s) && WriterOwned(c, s.pool, s.wr)
    requires WriterAt(c, s.hist.loc, s.wr) && QueueAt(c, s.hist.loc, s.wq.items, AtWriteQueue)
    requires WriterCan(c, s) && !s.wr.failed && !s.wr.pc.NFail?
    ensures var s' := WriterStep(c, s, fail, junk); Sized(c, s') && SlotsAccounted(c, s')
  {
    var s' := WriterStep(c, s, fail, junk);
    WriterSizes(c, s, fail, junk);
    if s.wr.pc.NGot? {
      WriterMovesOn(c, s, s', s.wr.pc.b.index, Written);
    } else if s.wr.pc.NPop? && s.wq.items != [] {
      WriterMovesOn(c, s, s', s.wq.items[0].index, AtWriter);
    } else {
      assert s'.hist == s.hist;
    }
  }

  lemma WriterKeepsItems(c: Config, s: State, fail: bool, junk: Block)
    requires WriterCan(c, s) && WriterAt(c, s.hist.loc, s.wr) && WriterOwned(c, s.pool, s.wr) && !s.wr.pc.NFail?
    requires !s.wr.failed && WorkersAt(c, s.hist.loc, s.hs.ws) && WorkersOwned(c, s.pool, s.hs.ws)
    requires QueueAt(c, s.hist.loc, s.hq.items, AtHashQueue) && QueueOwned(c, s.pool, s.hq.items)
    requires QueueAt(c, s.hist.loc, s.wq.items, AtWriteQueue) && QueueOwned(c, s.pool, s.wq.items)
    ensures var s' := WriterStep(c, s, fail, junk);
      && Sized(c, s') && QueueOwned(c, s'.pool, s'.hq.items) && QueueOwned(c, s'.pool, s'.wq.items)
      && WorkersOwned(c, s'.pool, s'.hs.ws)
  {
    var s' := WriterStep(c, s, fail, junk);
    WriterSizes(c, s, fail, junk);
    if s.wr.pc.NFree? {
      var b := s.wr.pc.b;
      QueueElsewhere(c, s.hist.loc, s.pool, s'.pool, b.slot, b.index, s.hq.items, AtHashQueue);
      QueueElsewhere(c, s.hist.loc, s.pool, s'.pool, b.slot, b.index, s.wq.items, AtWriteQueue);
      WorkersElsewhere(c, s.hist.loc, s.pool, s'.pool, b.slot, b.index, s.hs.ws);
    } else {
      assert s'.pool == s.pool && s'.hs == s.hs && s'.hq == s.hq;
    }
  }

  lemma WriterKeepsEnds(c: Config, s: State, fail: bool, junk: Block)
    requires WriterCan(c, s) && !s.wr.failed && !s.wr.pc.NFail?
    requires WriterAt(c, s.hist.loc, s.wr) && WriterOwned(c, s.pool, s.wr) && QueueOwned(c, s.pool, s.wq.items)
    requires ReaderAt(c, s.hist.loc, s.rd, s.hist.restored) && ReaderOwned(c, s.pool, s.rd)
    ensures var s' := WriterStep(c, s, fail, junk);
      Sized(c, s') && ReaderOwned(c, s'.pool, s'.rd) && WriterOwned(c, s'.pool, s'.wr)
  {
    var s' := WriterStep(c, s, fail, junk);
    WriterSizes(c, s, fail, junk);
    assert s'.rd == s.rd;
    if !s.wr.pc.NFree? { assert s'.pool == s.pool; }
  }

  lemma WriterKeeps(c: Config, s: State, fail: bool, junk: Block)
    requires Inv(c, s) && Stages.Inv(c, s) && WriterCan(c, s)
    ensures Inv(c, WriterStep(c, s, fail, junk))
  {
    WriterSizes(c, s, fail, junk);
    if !WriterStep(c, s, fail, junk).wr.failed {
      WriterKeepsSlots(c, s, fail, junk);
      WriterKeepsItems(c, s, fail, junk);
      WriterKeepsEnds(c, s, fail, junk);
    }
  }

  lemma ControlKeeps(c: Config, s: State, s': State)
    requires Inv(c, s) && ControlFrame(s, s')
    ensures Inv(c, s')
  {}
}
