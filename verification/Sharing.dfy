/** After a failed Write, whose buffer is freed twice, blocks read later may share a buffer, and
    one be hashed with the bytes of the next. Blocks read before it keep theirs. */
module Sharing {
  import opened Common
  import opened Pipeline
  import opened Frames
  import opened Stages
  import opened Durability
  import opened Convergence
  import Handshake
  import Ownership
  import Session

  ghost predicate SameAsNext(c: Config, k: nat)
    requires k + 1 < c.n == |c.vol|
  {
    c.digest(c.vol[k]) == c.digest(c.vol[k + 1])
  }

  // Behind every block that the session may fail to write all blocks have the same digest.
  ghost predicate TailSame(c: Config)
    requires ValidConfig(c)
  {
    forall f, k :: 0 <= f < k < c.n - 1 && !Keeps(c, f) ==> SameAsNext(c, k)
  }

  lemma {:induction false} TailIsSame(c: Config, f: nat, k: nat, m: nat)
    requires ValidConfig(c) && TailSame(c) && f < k <= m < c.n && !Keeps(c, f)
    ensures c.digest(c.vol[k]) == c.digest(c.vol[m])
  {
    if k < m {
      TailIsSame(c, f, k, m - 1);
      assert SameAsNext(c, m - 1);
    }
  }

  // ---------------------------------------------------------------- who holds what

  predicate AllocIsHeld(p: Pool) {
    |p.alloc| == |p.holder| == |p.buf| == ALLOCATOR_BLOCKS
    && forall k :: 0 <= k < ALLOCATOR_BLOCKS ==> (p.alloc[k] <==> p.holder[k] >= 0)
  }

  // The slot was given to a block before f and has not been freed.
  predicate OldSlot(p: Pool, f: nat, k: nat)
    requires |p.holder| == ALLOCATOR_BLOCKS
  {
    k < ALLOCATOR_BLOCKS && 0 <= p.holder[k] < f
  }

  // A block before f has a slot of its own, and no later one a slot of these.
  predicate Fits(p: Pool, f: nat, b: Item)
    requires |p.holder| == ALLOCATOR_BLOCKS
  {
    b.slot < ALLOCATOR_BLOCKS && if b.index < f then p.holder[b.slot] == b.index else !OldSlot(p, f, b.slot)
  }

  // Its buffer gives the right digest.
  predicate Hashable(c: Config, p: Pool, b: Item)
    requires |p.buf| == ALLOCATOR_BLOCKS && |c.vol| == c.n
  {
    InRange(c, b) && c.digest(p.buf[b.slot]) == c.digest(c.vol[b.index])
  }

  ghost predicate QueueFits(p: Pool, f: nat, q: seq<Item>)
    requires |p.holder| == ALLOCATOR_BLOCKS
  {
    forall k :: 0 <= k < |q| ==> Fits(p, f, q[k])
  }

  ghost predicate QueueHashable(c: Config, p: Pool, q: seq<Item>)
    requires |p.buf| == ALLOCATOR_BLOCKS && |c.vol| == c.n
  {
    forall k :: 0 <= k < |q| ==> Hashable(c, p, q[k])
  }

  ghost predicate WorkersFit(c: Config, p: Pool, f: nat, ws: seq<WorkerPc>)
    requires |p.holder| == |p.buf| == ALLOCATOR_BLOCKS && |c.vol| == c.n
  {
    && (forall j :: 0 <= j < |ws| && HasItem(ws[j]) ==> Fits(p, f, ws[j].b))
    && (forall j :: 0 <= j < |ws| && ws[j].WHash? ==> Hashable(c, p, ws[j].b))
  }

  ghost predicate ReaderFits(c: Config, p: Pool, f: nat, rd: ReaderState)
    requires |p.holder| == |p.buf| == ALLOCATOR_BLOCKS && |c.vol| == c.n
  {
    && (rd.pc.RRead? || rd.pc.RPush? ==> f < rd.cur && Fits(p, f, Item(rd.pc.slot, rd.cur)))
    && (rd.pc.RPush? ==> Hashable(c, p, Item(rd.pc.slot, rd.cur)))
  }

  ghost predicate WriterFits(p: Pool, f: nat, wr: WriterState)
    requires |p.holder| == ALLOCATOR_BLOCKS
  {
    (wr.pc.NGot? ==> Fits(p, f, wr.pc.b)) && (Finishing(wr.pc) ==> wr.pc.b.index == f && Fits(p, f, wr.pc.b))
  }

  // Block f is the one whose Write has failed.
  ghost predicate FailedAt(c: Config, s: State, f: nat)
    requires ValidConfig(c)
  {
    && Sized(c, s) && AllocIsHeld(s.pool) && HasFailed(s.wr) && f < c.n && !Keeps(c, f) && s.hist.loc[f].Written?
    && QueueFits(s.pool, f, s.hq.items) && QueueHashable(c, s.pool, s.hq.items) && QueueFits(s.pool, f, s.wq.items)
    && WorkersFit(c, s.pool, f, s.hs.ws) && ReaderFits(c, s.pool, f, s.rd) && WriterFits(s.pool, f, s.wr)
  }

  // ---------------------------------------------------------------- the moment of the failure

  lemma OwnedFits(c: Config, s: State, f: nat)
    requires ValidConfig(c) && Stages.Inv(c, s) && Ownership.Inv(c, s) && !s.wr.failed && f < c.n
    requires s.hist.loc[f].AtWriter?
    ensures QueueFits(s.pool, f, s.hq.items) && QueueHashable(c, s.pool, s.hq.items) && QueueFits(s.pool, f, s.wq.items)
    ensures WorkersFit(c, s.pool, f, s.hs.ws) && ReaderFits(c, s.pool, f, s.rd)
  {}

  lemma FailureStarts(c: Config, s: State, junk: Block)
    requires ValidConfig(c) && Session.Inv(c, s) && !HasFailed(s.wr) && AllocIsHeld(s.pool)
    requires Enabled(c, s, Writer(true, junk)) && HasFailed(WriterStep(c, s, true, junk).wr)
    ensures FailedAt(c, WriterStep(c, s, true, junk), s.wr.pc.b.index)
  {
    var f, s' := s.wr.pc.b.index, WriterStep(c, s, true, junk);
    WriterSizes(c, s, true, junk);
    assert Ownership.Owned(c, s.pool, s.wr.pc.b);
    assert s'.pool == s.pool && s'.hq == s.hq && s'.wq == s.wq && s'.hs == s.hs && s'.rd == s.rd;
    OwnedFits(c, s, f);
  }

  // ---------------------------------------------------------------- steps after it

  // Slot k is freed by its holder, or given to a later block.
  predicate Repooled(p: Pool, p': Pool, f: nat, k: nat) {
    && |p.holder| == |p.buf| == |p'.holder| == |p'.buf| == ALLOCATOR_BLOCKS && k < ALLOCATOR_BLOCKS
    && p'.buf == p.buf && p'.holder == p.holder[k := p'.holder[k]]
    && (p'.holder[k] < 0 || f <= p'.holder[k])
  }

  // Freed by a block that fits, or taken when free: no old block loses its slot.
  predicate NobodysSlot(p: Pool, f: nat, k: nat, whose: int)
    requires |p.holder| == ALLOCATOR_BLOCKS
  {
    k < ALLOCATOR_BLOCKS && (OldSlot(p, f, k) ==> p.holder[k] == whose)
  }

  lemma QueueFitsStill(c: Config, loc: seq<Loc>, p: Pool, p': Pool, f: nat, k: nat, whose: int, q: seq<Item>, at: Loc)
    requires |loc| == c.n && QueueAt(c, loc, q, at)
    requires Repooled(p, p', f, k) && QueueFits(p, f, q) && NobodysSlot(p, f, k, whose)
    requires 0 <= whose < c.n ==> loc[whose] != at
    ensures QueueFits(p', f, q)
  {}

  lemma WorkersFitStill(c: Config, loc: seq<Loc>, p: Pool, p': Pool, f: nat, k: nat, whose: int, ws: seq<WorkerPc>)
    requires |loc| == |c.vol| == c.n && WorkersAt(c, loc, ws) && |p.buf| == ALLOCATOR_BLOCKS
    requires |p.holder| == ALLOCATOR_BLOCKS
    requires WorkersFit(c, p, f, ws) && Repooled(p, p', f, k) && NobodysSlot(p, f, k, whose)
    requires 0 <= whose < c.n ==> !loc[whose].AtWorker?
    ensures WorkersFit(c, p', f, ws)
  {}

  // A buffer filled by a later block: whoever shares it is a later one too, with the same digest.
  lemma HashableStill(c: Config, p: Pool, f: nat, k: nat, cur: nat, b: Item)
    requires ValidConfig(c) && TailSame(c) && f < cur < c.n && !Keeps(c, f)
    requires |p.holder| == |p.buf| == ALLOCATOR_BLOCKS && k < ALLOCATOR_BLOCKS && !OldSlot(p, f, k)
    requires Fits(p, f, b) && Hashable(c, p, b) && b.index != f
    ensures Hashable(c, p.(buf := p.buf[k := c.vol[cur]]), b)
  {
    if b.slot == k {
      if b.index <= cur { TailIsSame(c, f, b.index, cur); } else { TailIsSame(c, f, cur, b.index); }
    }
  }

  lemma QueueHashableStill(c: Config, loc: seq<Loc>, p: Pool, f: nat, k: nat, cur: nat, q: seq<Item>, at: Loc)
    requires ValidConfig(c) && TailSame(c) && f < cur < c.n && !Keeps(c, f) && |loc| == c.n && loc[f] != at
    requires |p.holder| == |p.buf| == ALLOCATOR_BLOCKS && k < ALLOCATOR_BLOCKS && !OldSlot(p, f, k)
    requires QueueAt(c, loc, q, at) && QueueFits(p, f, q) && QueueHashable(c, p, q)
    ensures QueueHashable(c, p.(buf := p.buf[k := c.vol[cur]]), q)
  {
    forall l | 0 <= l < |q| ensures Hashable(c, p.(buf := p.buf[k := c.vol[cur]]), q[l]) {
      HashableStill(c, p, f, k, cur, q[l]);
    }
  }

  lemma WorkersHashableStill(c: Config, loc: seq<Loc>, p: Pool, f: nat, k: nat, cur: nat, ws: seq<WorkerPc>)
    requires ValidConfig(c) && TailSame(c) && f < cur < c.n && !Keeps(c, f) && |loc| == c.n && !loc[f].AtWorker?
    requires |p.holder| == |p.buf| == ALLOCATOR_BLOCKS && k < ALLOCATOR_BLOCKS && !OldSlot(p, f, k)
    requires WorkersAt(c, loc, ws) && WorkersFit(c, p, f, ws)
    ensures WorkersFit(c, p.(buf := p.buf[k := c.vol[cur]]), f, ws)
  {
    forall j | 0 <= j < |ws| && ws[j].WHash? ensures Hashable(c, p.(buf := p.buf[k := c.vol[cur]]), ws[j].b) {
      HashableStill(c, p, f, k, cur, ws[j].b);
    }
  }

  lemma ReaderOnlyLooks(c: Config, s: State, fail: bool)
    requires ReaderCan(c, s, fail) && !s.rd.pc.RFetch? && !s.rd.pc.RRead? && !s.rd.pc.RPush?
    ensures var s' := ReaderStep(c, s, fail);
      && s'.pool == s.pool && s'.hist == s.hist && s'.hq.items == s.hq.items && s'.wq.items == s.wq.items
      && !s'.rd.pc.RRead? && !s'.rd.pc.RPush?
  {}

  lemma ReaderFills(c: Config, s: State, fail: bool, f: nat)
    requires ValidConfig(c) && TailSame(c) && Stages.Inv(c, s) && FailedAt(c, s, f) && ReaderCan(c, s, fail)
    requires s.rd.pc.RRead?
    ensures FailedAt(c, ReaderStep(c, s, fail), f)
  {
    var s', p, k := ReaderStep(c, s, fail), s.pool, s.rd.pc.slot;
    ReaderSizes(c, s, fail);
    if !fail {
      QueueHashableStill(c, s.hist.loc, p, f, k, s.rd.cur, s.hq.items, AtHashQueue);
      WorkersHashableStill(c, s.hist.loc, p, f, k, s.rd.cur, s.hs.ws);
      assert s'.pool == p.(buf := p.buf[k := c.vol[s.rd.cur]]) && s'.hist == s.hist;
    }
  }

  lemma ReaderPushes(c: Config, s: State, fail: bool, f: nat)
    requires ValidConfig(c) && Stages.Inv(c, s) && FailedAt(c, s, f) && ReaderCan(c, s, fail) && s.rd.pc.RPush?
    requires !(if c.hasher then s.hq else s.wq).finished
    ensures FailedAt(c, ReaderStep(c, s, fail), f)
  {
    var s' := ReaderStep(c, s, fail);
    ReaderSizes(c, s, fail);
    assert s'.pool == s.pool && s'.hs == s.hs && s'.wr == s.wr && s'.hist.loc[f] == s.hist.loc[f];
  }

  lemma ReaderTakes(c: Config, s: State, fail: bool, f: nat)
    requires ValidConfig(c) && Stages.Inv(c, s) && FailedAt(c, s, f) && ReaderCan(c, s, fail) && s.rd.pc.RFetch?
    ensures FailedAt(c, ReaderStep(c, s, fail), f)
  {
    var s', k := ReaderStep(c, s, fail), FirstFree(s.pool.alloc);
    ReaderSizes(c, s, fail);
    if k < ALLOCATOR_BLOCKS {
      assert f < s.rd.cur;
      QueueFitsStill(c, s.hist.loc, s.pool, s'.pool, f, k, -1, s.hq.items, AtHashQueue);
      QueueFitsStill(c, s.hist.loc, s.pool, s'.pool, f, k, -1, s.wq.items, AtWriteQueue);
      WorkersFitStill(c, s.hist.loc, s.pool, s'.pool, f, k, -1, s.hs.ws);
    }
  }

  lemma ReaderKeepsFit(c: Config, s: State, fail: bool, f: nat)
    requires ValidConfig(c) && TailSame(c) && Stages.Inv(c, s) && FailedAt(c, s, f) && ReaderCan(c, s, fail)
    requires s.rd.pc.RPush? ==> !(if c.hasher then s.hq else s.wq).finished
    ensures FailedAt(c, ReaderStep(c, s, fail), f)
  {
    ReaderSizes(c, s, fail);
    assert ReaderStep(c, s, fail).hs == s.hs && ReaderStep(c, s, fail).wr == s.wr;
    match s.rd.pc {
      case RFetch => ReaderTakes(c, s, fail, f);
      case RRead(k) => ReaderFills(c, s, fail, f);
      case RPush(k) => ReaderPushes(c, s, fail, f);
      case RDone => assert false;
      case _ => ReaderOnlyLooks(c, s, fail);
    }
  }

  lemma WorkerPops(c: Config, s: State, j: nat, f: nat)
    requires ValidConfig(c) && Stages.Inv(c, s) && FailedAt(c, s, f) && WorkerCan(c, s, j) && s.hs.ws[j].WPop?
    ensures FailedAt(c, WorkerStep(c, s, j), f)
  {
    WorkerSizes(c, s, j);
    var s' := WorkerStep(c, s, j);
    assert s'.pool == s.pool && s'.rd == s.rd && s'.wr == s.wr && s'.wq == s.wq;
    QueueHead(c, s.hist.loc, s.hq.items, AtHashQueue);
  }

  // A block at a worker or the writer frees its slot: what is left of the others still fits.
  lemma FreeKeepsFit(c: Config, s: State, p': Pool, f: nat, b: Item)
    requires ValidConfig(c) && Stages.Inv(c, s) && FailedAt(c, s, f)
    requires b.slot < ALLOCATOR_BLOCKS && b.index < c.n && Fits(s.pool, f, b) && p' == Free(s.pool, b.slot)
    requires s.hist.loc[b.index].AtWorker? || s.hist.loc[b.index].AtWriter? || s.hist.loc[b.index].Written?
    ensures AllocIsHeld(p') && QueueFits(p', f, s.hq.items) && QueueHashable(c, p', s.hq.items)
    ensures QueueFits(p', f, s.wq.items)
    ensures ReaderFits(c, p', f, s.rd)
  {
    QueueFitsStill(c, s.hist.loc, s.pool, p', f, b.slot, b.index, s.hq.items, AtHashQueue);
    QueueFitsStill(c, s.hist.loc, s.pool, p', f, b.slot, b.index, s.wq.items, AtWriteQueue);
  }

  lemma WorkersFitWithout(c: Config, loc: seq<Loc>, p: Pool, p': Pool, f: nat, j: nat, ws: seq<WorkerPc>, b: Item)
    requires |loc| == |c.vol| == c.n && WorkersAt(c, loc, ws) && |p.buf| == |p.holder| == |p.alloc| == ALLOCATOR_BLOCKS
    requires WorkersFit(c, p, f, ws) && j < |ws| && ws[j] == WFree(b) && p' == Free(p, b.slot)
    ensures WorkersFit(c, p', f, ws[j := WLoad(b.index)])
  {}

  lemma WorkerFreesFit(c: Config, s: State, j: nat, f: nat)
    requires ValidConfig(c) && Stages.Inv(c, s) && FailedAt(c, s, f) && WorkerCan(c, s, j) && s.hs.ws[j].WFree?
    ensures FailedAt(c, WorkerStep(c, s, j), f)
  {
    WorkerSizes(c, s, j);
    var s', b := WorkerStep(c, s, j), s.hs.ws[j].b;
    FreeKeepsFit(c, s, s'.pool, f, b);
    WorkersFitWithout(c, s.hist.loc, s.pool, s'.pool, f, j, s.hs.ws, b);
    assert s'.wr == s.wr;
  }

  lemma WorkerStaysFit(c: Config, s: State, j: nat, f: nat)
    requires ValidConfig(c) && FailedAt(c, s, f) && WorkerCan(c, s, j)
    requires !s.hs.ws[j].WFree? && !s.hs.ws[j].WPop? && !s.hs.ws[j].WPush?
    ensures FailedAt(c, WorkerStep(c, s, j), f)
  {
    WorkerSizes(c, s, j);
    var s' := WorkerStep(c, s, j);
    assert s'.pool == s.pool && s'.hq == s.hq && s'.wq.items == s.wq.items && s'.hist.loc == s.hist.loc;
    assert s'.rd == s.rd && s'.wr == s.wr && s'.hs.ws == s.hs.ws[j := s'.hs.ws[j]];
  }

  lemma FitHashesItsOwn(c: Config, s: State, j: nat, f: nat)
    requires ValidConfig(c) && FailedAt(c, s, f) && WorkerCan(c, s, j)
    ensures HashesItsOwn(c, s, j)
  {}

  lemma WorkerKeepsFit(c: Config, s: State, j: nat, f: nat)
    requires ValidConfig(c) && Stages.Inv(c, s) && FailedAt(c, s, f) && WorkerCan(c, s, j)
    requires s.hs.ws[j].WPush? ==> !s.wq.finished
    ensures FailedAt(c, WorkerStep(c, s, j), f) && HashesItsOwn(c, s, j)
  {
    WorkerSizes(c, s, j);
    FitHashesItsOwn(c, s, j, f);
    var s' := WorkerStep(c, s, j);
    assert s'.rd == s.rd && s'.wr == s.wr && s'.hs.ws == s.hs.ws[j := s'.hs.ws[j]];
    match s.hs.ws[j] {
      case WFree(b) => WorkerFreesFit(c, s, j, f);
      case WPop => WorkerPops(c, s, j, f);
      case WPush(b) => assert s'.pool == s.pool;
      case _ => WorkerStaysFit(c, s, j, f);
    }
  }

  // A block at the writer frees its slot.
  lemma WriterFreesFit(c: Config, s: State, f: nat)
    requires ValidConfig(c) && Stages.Inv(c, s) && FailedAt(c, s, f) && (s.wr.pc.NGot? || Finishing(s.wr.pc))
    ensures var p' := Free(s.pool, s.wr.pc.b.slot);
      && AllocIsHeld(p') && QueueFits(p', f, s.hq.items) && QueueHashable(c, p', s.hq.items)
      && QueueFits(p', f, s.wq.items)
      && ReaderFits(c, p', f, s.rd) && WorkersFit(c, p', f, s.hs.ws) && !OldSlot(p', f, s.wr.pc.b.slot)
  {
    var b := s.wr.pc.b;
    FreeKeepsFit(c, s, Free(s.pool, b.slot), f, b);
    WorkersFitStill(c, s.hist.loc, s.pool, Free(s.pool, b.slot), f, b.slot, b.index, s.hs.ws);
  }

  lemma WriterOnlyMarks(c: Config, s: State, fail: bool, junk: Block)
    requires WriterCan(c, s) && !s.wr.pc.NPop? && !s.wr.pc.NGot? && !s.wr.pc.NFail? && !s.wr.pc.NFree?
    ensures var s' := WriterStep(c, s, fail, junk);
      && s'.pool == s.pool && s'.hist == s.hist && s'.wq == s.wq && s'.wr.failed == s.wr.failed
      && !s'.wr.pc.NGot? && !s'.wr.pc.NFail? && (Finishing(s'.wr.pc) ==> Finishing(s.wr.pc) && s'.wr.pc.b == s.wr.pc.b)
  {}

  lemma WriterTakesFit(c: Config, s: State, fail: bool, junk: Block, f: nat)
    requires ValidConfig(c) && Stages.Inv(c, s) && FailedAt(c, s, f) && WriterCan(c, s) && s.wr.pc.NPop?
    ensures FailedAt(c, WriterStep(c, s, fail, junk), f)
  {
    var s' := WriterStep(c, s, fail, junk);
    WriterSizes(c, s, fail, junk);
    assert s'.pool == s.pool && s'.hq == s.hq && s'.hs == s.hs && s'.rd == s.rd;
    QueueHead(c, s.hist.loc, s.wq.items, AtWriteQueue);
  }

  lemma WriterLosesFit(c: Config, s: State, fail: bool, junk: Block, f: nat)
    requires ValidConfig(c) && Stages.Inv(c, s) && FailedAt(c, s, f) && WriterCan(c, s) && s.wr.pc.NGot?
    ensures FailedAt(c, WriterStep(c, s, fail, junk), f)
  {
    var s' := WriterStep(c, s, fail, junk);
    WriterSizes(c, s, fail, junk);
    WriterFreesFit(c, s, f);
    assert s'.hq == s.hq && s'.wq == s.wq && s'.hs == s.hs && s'.rd == s.rd;
  }

  lemma WriterKeepsFit(c: Config, s: State, fail: bool, junk: Block, f: nat)
    requires ValidConfig(c) && Stages.Inv(c, s) && FailedAt(c, s, f) && WriterCan(c, s)
    ensures FailedAt(c, WriterStep(c, s, fail, junk), f)
  {
    var s' := WriterStep(c, s, fail, junk);
    WriterSizes(c, s, fail, junk);
    assert s'.hq == s.hq && s'.hs == s.hs && s'.rd == s.rd;
    match s.wr.pc {
      case NPop => WriterTakesFit(c, s, fail, junk, f);
      case NGot(b) => WriterLosesFit(c, s, fail, junk, f);
      case NFail(b) => WriterFreesFit(c, s, f);
      case NFree(b) => WriterFreesFit(c, s, f);
      case NDone => assert false;
      case _ => WriterOnlyMarks(c, s, fail, junk);
    }
  }

  // ---------------------------------------------------------------- whole runs

  ghost predicate Shared(c: Config, s: State)
    requires ValidConfig(c)
  {
    AllocIsHeld(s.pool) && (HasFailed(s.wr) ==> exists f :: FailedAt(c, s, f))
  }

  // What a run keeps that may fail to write, but loses no table.
  ghost predicate TailInv(c: Config, s: State)
    requires ValidConfig(c)
  {
    Session.Inv(c, s) && RefreshOnlyIfEnabled(c, s) && TableTrusted(c, s) && Shared(c, s)
  }

  lemma ReaderPool(c: Config, s: State, fail: bool)
    requires ReaderCan(c, s, fail) && AllocIsHeld(s.pool)
    ensures AllocIsHeld(ReaderStep(c, s, fail).pool)
  {}

  lemma WorkerPool(c: Config, s: State, j: nat)
    requires WorkerCan(c, s, j) && AllocIsHeld(s.pool)
    ensures AllocIsHeld(WorkerStep(c, s, j).pool)
  {}

  lemma WriterPool(c: Config, s: State, fail: bool, junk: Block)
    requires WriterCan(c, s) && AllocIsHeld(s.pool)
    ensures AllocIsHeld(WriterStep(c, s, fail, junk).pool)
  {}

  lemma PoolStep(c: Config, s: State, a: Action)
    requires Enabled(c, s, a) && !a.Crash? && AllocIsHeld(s.pool)
    ensures AllocIsHeld(Next(c, s, a).pool)
  {
    match a
    case Reader(fail) => ReaderPool(c, s, fail);
    case Worker(j) => WorkerPool(c, s, j);
    case Writer(fail, junk) => WriterPool(c, s, fail, junk);
    case Control(choice, ok) => ControlFrames(c, s, choice, ok);
  }

  lemma OnlyTheWriterFails(c: Config, s: State, a: Action)
    requires Enabled(c, s, a) && !a.Crash? && !HasFailed(s.wr)
    ensures HasFailed(Next(c, s, a).wr) ==> a.Writer? && a.fail && s.wr.pc.NGot?
  {
    match a
    case Reader(fail) => assert ReaderStep(c, s, fail).wr == s.wr;
    case Worker(j) => assert WorkerStep(c, s, j).wr == s.wr;
    case Writer(fail, junk) => if !(s.wr.pc.NGot? && fail) { WriterFailsOnlyIfAllowed(c, s, fail, junk); }
    case Control(choice, ok) => ControlFrames(c, s, choice, ok);
  }

  lemma SharedStarts(c: Config, s: State, a: Action)
    requires ValidConfig(c) && Session.Inv(c, s) && AllocIsHeld(s.pool) && !HasFailed(s.wr)
    requires Enabled(c, s, a) && !a.Crash?
    ensures Shared(c, Next(c, s, a))
  {
    PoolStep(c, s, a);
    OnlyTheWriterFails(c, s, a);
    if HasFailed(Next(c, s, a).wr) { FailureStarts(c, s, a.junk); }
  }

  lemma FailedStep(c: Config, s: State, a: Action, f: nat)
    requires ValidConfig(c) && TailSame(c) && Stages.Inv(c, s) && Handshake.Inv(c, s) && FailedAt(c, s, f)
    requires Enabled(c, s, a) && !a.Crash?
    ensures FailedAt(c, Next(c, s, a), f) && HashesRightly(c, s, a)
  {
    match a
    case Reader(fail) => ReaderKeepsFit(c, s, fail, f);
    case Worker(j) => WorkerKeepsFit(c, s, j, f);
    case Writer(fail, junk) => WriterKeepsFit(c, s, fail, junk, f);
    case Control(choice, ok) => ControlFrames(c, s, choice, ok);
  }

  // A run starts with all buffers free.
  lemma NothingIsShared(c: Config, s: State, a: Action)
    requires ValidConfig(c) && Enabled(c, s, a) && a.Crash?
    ensures Shared(c, Next(c, s, a)) && HashesRightly(c, s, a)
  {}

  lemma SharedElsewhere(c: Config, s: State, a: Action)
    requires ValidConfig(c) && Session.Inv(c, s) && AllocIsHeld(s.pool) && Enabled(c, s, a)
    requires a.Crash? || !HasFailed(s.wr)
    ensures Shared(c, Next(c, s, a)) && HashesRightly(c, s, a)
  {
    if a.Crash? {
      NothingIsShared(c, s, a);
    } else {
      SoundBuffers(c, s, a);
      SharedStarts(c, s, a);
    }
  }

  lemma SharedStep(c: Config, s: State, a: Action)
    requires ValidConfig(c) && Comparable(c) && TailSame(c) && Session.Inv(c, s) && Shared(c, s) && Enabled(c, s, a)
    ensures Shared(c, Next(c, s, a)) && HashesRightly(c, s, a)
  {
    if HasFailed(s.wr) && !a.Crash? {
      var f :| FailedAt(c, s, f);
      FailedStep(c, s, a, f);
    } else {
      SharedElsewhere(c, s, a);
    }
  }

  lemma TailStep(c: Config, fs: set<Failure>, s: State, a: Action)
    requires ValidConfig(c) && Comparable(c) && TailSame(c) && fs !! TABLE_LOSSES
    requires TailInv(c, s) && Enabled(c, s, a) && Tolerates(c, s, a, fs)
    ensures TailInv(c, Next(c, s, a))
  {
    SharedStep(c, s, a);
    TableTrustedStep(c, s, a, fs);
    EnabledStays(c, s, a);
    Session.StepKeeps(c, s, a);
  }

  lemma TailStart(c: Config)
    requires ValidConfig(c)
    ensures TailInv(c, Init(c))
  {
    Session.InitInv(c);
  }

  lemma TailReached(c: Config, fs: set<Failure>, steps: seq<Action>, s: State)
    requires ValidConfig(c) && Comparable(c) && TailSame(c) && fs !! TABLE_LOSSES
    requires RunsWith(c, fs, Init(c), steps, s)
    ensures TailInv(c, s)
  {
    var keep := (t: State) => ValidConfig(c) && TailInv(c, t);
    TailStart(c);
    forall t: State, a: Action | keep(t) && Enabled(c, t, a) && Tolerates(c, t, a, fs) ensures keep(Next(c, t, a)) {
      TailStep(c, fs, t, a);
    }
    RunKeeps(c, fs, keep, Init(c), steps, s);
  }

  // Failed Writes alone never spoil a digest of a session whose tail is all the same.
  lemma WithSameTail(c: Config, fs: set<Failure>, steps: seq<Action>, s: State)
    requires ValidConfig(c) && Comparable(c) && TailSame(c) && fs !! TABLE_LOSSES
    requires RunsWith(c, fs, Init(c), steps, s) && Succeeded(s)
    ensures c.hasher ==> TableRight(c, s)
  {
    TailReached(c, fs, steps, s);
    SuccessfulState(c, s);
  }
}
