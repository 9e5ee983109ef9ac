/** Every step keeps the stages. */
module StageSteps {
  import opened Common
  import opened Pipeline
  import opened Frames
  import opened Stages
  import Handshake

  lemma ReaderTakes(c: Config, loc: seq<Loc>, rd: ReaderState, restored: set<nat>, slot: nat)
    requires |loc| == c.n && ReaderAt(c, loc, rd, restored) && rd.pc.RFetch? && rd.cur < c.n
    requires slot < ALLOCATOR_BLOCKS
    ensures ReaderAt(c, loc[rd.cur := AtReader], rd.(pc := RRead(slot)), restored)
  {}

  lemma ReaderHandsOver(c: Config, loc: seq<Loc>, rd: ReaderState, restored: set<nat>, to: Loc)
    requires |loc| == c.n && ReaderAt(c, loc, rd, restored) && rd.pc.RPush? && rd.cur < c.n
    requires to.AtHashQueue? || to.AtWriteQueue?
    ensures ReaderAt(c, loc[rd.cur := to], rd.(pc := RCount), restored)
  {}

  lemma ReaderKeepsPlaces(c: Config, s: State, fail: bool)
    requires ReaderCan(c, s, fail) && !s.rd.pc.RFetch? && !s.rd.pc.RPush?
    requires ReaderAt(c, s.hist.loc, s.rd, s.hist.restored) && Truthful(c, s.hist.loc, s.bits.processed)
    requires s.hist.restored <= s.bits.processed && (!c.checkpoint ==> s.hist.restored == {})
    requires Handshake.ReaderShut(c, s)
    ensures var s' := ReaderStep(c, s, fail);
      s'.hist == s.hist && ReaderAt(c, s'.hist.loc, s'.rd, s'.hist.restored)
  {}

  lemma ReaderKeepsReader(c: Config, s: State, fail: bool)
    requires Inv(c, s) && Handshake.ReaderShut(c, s) && ReaderCan(c, s, fail)
    ensures var s' := ReaderStep(c, s, fail); ReaderAt(c, s'.hist.loc, s'.rd, s'.hist.restored)
  {
    var loc, rd, restored := s.hist.loc, s.rd, s.hist.restored;
    if rd.pc.RFetch? {
      if FirstFree(s.pool.alloc) < ALLOCATOR_BLOCKS {
        ReaderTakes(c, loc, rd, restored, FirstFree(s.pool.alloc));
      }
    } else if rd.pc.RPush? {
      ReaderHandsOver(c, loc, rd, restored, if c.hasher then AtHashQueue else AtWriteQueue);
    } else {
      ReaderKeepsPlaces(c, s, fail);
    }
  }

  // The reader's push, seen from both queues.
  lemma ReaderPushKeepsQueues(c: Config, s: State, slot: nat)
    requires |s.hist.loc| == c.n && s.rd.cur < c.n && slot < ALLOCATOR_BLOCKS
    requires QueueAt(c, s.hist.loc, s.hq.items, AtHashQueue) && QueueAt(c, s.hist.loc, s.wq.items, AtWriteQueue)
    requires s.hist.loc[s.rd.cur].AtReader?
    ensures var b, i := Item(slot, s.rd.cur), s.rd.cur;
      if c.hasher then
        && QueueAt(c, s.hist.loc[i := AtHashQueue], s.hq.items + [b], AtHashQueue)
        && QueueAt(c, s.hist.loc[i := AtHashQueue], s.wq.items, AtWriteQueue)
      else
        && QueueAt(c, s.hist.loc[i := AtWriteQueue], s.hq.items, AtHashQueue)
        && QueueAt(c, s.hist.loc[i := AtWriteQueue], s.wq.items + [b], AtWriteQueue)
  {
    var loc, i := s.hist.loc, s.rd.cur;
    if c.hasher {
      QueuePush(c, loc, s.hq.items, AtHashQueue, Item(slot, i));
      QueueMoveElsewhere(c, loc, s.wq.items, AtWriteQueue, i, AtHashQueue);
    } else {
      QueuePush(c, loc, s.wq.items, AtWriteQueue, Item(slot, i));
      QueueMoveElsewhere(c, loc, s.hq.items, AtHashQueue, i, AtWriteQueue);
    }
  }

  lemma ReaderKeepsQueues(c: Config, s: State, fail: bool)
    requires Inv(c, s) && Handshake.ReaderShut(c, s) && ReaderCan(c, s, fail)
    ensures var s' := ReaderStep(c, s, fail);
      && QueueAt(c, s'.hist.loc, s'.hq.items, AtHashQueue)
      && QueueAt(c, s'.hist.loc, s'.wq.items, AtWriteQueue)
  {
    if s.rd.pc.RPush? {
      ReaderPushKeepsQueues(c, s, s.rd.pc.slot);
    } else if s.rd.pc.RFetch? {
      QueueMoveElsewhere(c, s.hist.loc, s.hq.items, AtHashQueue, s.rd.cur, AtReader);
      QueueMoveElsewhere(c, s.hist.loc, s.wq.items, AtWriteQueue, s.rd.cur, AtReader);
    }
  }

  lemma OthersStay(c: Config, s: State, s': State, i: nat, to: Loc)
    requires Inv(c, s) && i < c.n && (s.hist.loc[i].Todo? || s.hist.loc[i].AtReader?) && HandedOut(c, to)
    requires s'.hist.loc == s.hist.loc[i := to] && s'.hist.restored == s.hist.restored
    requires s'.hs == s.hs && s'.wr == s.wr && s'.bits == s.bits
    ensures WorkersAt(c, s'.hist.loc, s'.hs.ws) && WriterAt(c, s'.hist.loc, s'.wr) && BitsAt(c, s')
  {
    WorkersMoveElsewhere(c, s.hist.loc, s.hs.ws, i, to);
    WriterMoveElsewhere(c, s.hist.loc, s.wr, i, to);
    BitsMove(c, s, s', i, to);
  }

  lemma ReaderKeepsOthers(c: Config, s: State, fail: bool)
    requires Inv(c, s) && Handshake.ReaderShut(c, s) && ReaderCan(c, s, fail)
    ensures var s' := ReaderStep(c, s, fail);
      WorkersAt(c, s'.hist.loc, s'.hs.ws) && WriterAt(c, s'.hist.loc, s'.wr) && BitsAt(c, s')
  {
    var s', i := ReaderStep(c, s, fail), s.rd.cur;
    ReaderEffect(c, s, fail);
    if s'.hist.loc != s.hist.loc {
      assert s.hist.loc[i].Todo? || s.hist.loc[i].AtReader?;
      assert s.rd.pc.RPush? ==> !(if c.hasher then s.hq else s.wq).finished;
      OthersStay(c, s, s', i, s'.hist.loc[i]);
    }
  }

  lemma ReaderKeeps(c: Config, s: State, fail: bool)
    requires Inv(c, s) && Handshake.Inv(c, s) && ReaderCan(c, s, fail)
    ensures Inv(c, ReaderStep(c, s, fail))
  {
    ReaderSizes(c, s, fail);
    ReaderKeepsReader(c, s, fail);
    ReaderKeepsQueues(c, s, fail);
    ReaderKeepsOthers(c, s, fail);
  }

  // ---------------------------------------------------------------- workers

  lemma WorkerKeepsQueues(c: Config, s: State, j: nat)
    requires Inv(c, s) && Handshake.WorkersShut(c, s) && WorkerCan(c, s, j)
    requires c.hasher
    ensures var s' := WorkerStep(c, s, j);
      && QueueAt(c, s'.hist.loc, s'.hq.items, AtHashQueue)
      && QueueAt(c, s'.hist.loc, s'.wq.items, AtWriteQueue)
      && !s'.hist.refused == !s.hist.refused
  {
    var loc := s.hist.loc;
    match s.hs.ws[j] {
      case WPop =>
        if s.hq.items != [] {
          QueuePop(c, loc, s.hq.items, AtHashQueue, AtWorker(j));
          QueueMoveElsewhere(c, loc, s.wq.items, AtWriteQueue, s.hq.items[0].index, AtWorker(j));
        }
      case WFree(b) =>
        QueueMoveElsewhere(c, loc, s.hq.items, AtHashQueue, b.index, Dropped);
        QueueMoveElsewhere(c, loc, s.wq.items, AtWriteQueue, b.index, Dropped);
      case WPush(b) =>
        assert !s.wq.finished;
        QueueMoveElsewhere(c, loc, s.hq.items, AtHashQueue, b.index, AtWriteQueue);
        QueuePush(c, loc, s.wq.items, AtWriteQueue, b);
      case _ =>
    }
  }

  // A worker that moves on without moving a block.
  lemma WorkersAdvance(c: Config, loc: seq<Loc>, ws: seq<WorkerPc>, j: nat, w: WorkerPc)
    requires |loc| == c.n && WorkersAt(c, loc, ws) && j < |ws|
    requires HasItem(w) <==> HasItem(ws[j])
    requires HasItem(w) ==> w.b == ws[j].b
    requires w.WLoad? || w.WStore? ==> w.i < c.n && loc[w.i].Dropped?
    ensures WorkersAt(c, loc, ws[j := w])
  {}

  lemma WorkersTake(c: Config, loc: seq<Loc>, ws: seq<WorkerPc>, j: nat, b: Item)
    requires |loc| == c.n && WorkersAt(c, loc, ws) && j < |ws| && !HasItem(ws[j])
    requires InRange(c, b) && !loc[b.index].AtWorker? && !loc[b.index].Dropped?
    ensures WorkersAt(c, loc[b.index := AtWorker(j)], ws[j := WHash(b)])
  {}

  lemma WorkersRelease(c: Config, loc: seq<Loc>, ws: seq<WorkerPc>, j: nat, w: WorkerPc, to: Loc)
    requires |loc| == c.n && WorkersAt(c, loc, ws) && j < |ws| && HasItem(ws[j]) && !HasItem(w)
    requires !to.AtWorker?
    requires (w.WLoad? ==> w.i == ws[j].b.index && to.Dropped?) && !w.WStore?
    ensures WorkersAt(c, loc[ws[j].b.index := to], ws[j := w])
  {}

  lemma WorkerKeepsWorkers(c: Config, s: State, j: nat)
    requires Inv(c, s) && Handshake.WorkersShut(c, s) && WorkerCan(c, s, j) && c.hasher
    ensures var s' := WorkerStep(c, s, j); WorkersAt(c, s'.hist.loc, s'.hs.ws)
  {
    var s' := WorkerStep(c, s, j);
    var w' := s'.hs.ws[j];
    assert s'.hs.ws == s.hs.ws[j := w'];
    match s.hs.ws[j] {
      case WPop =>
        if s.hq.items != [] { WorkersTake(c, s.hist.loc, s.hs.ws, j, s.hq.items[0]); }
        else { WorkersAdvance(c, s.hist.loc, s.hs.ws, j, w'); }
      case WFree(b) => WorkersRelease(c, s.hist.loc, s.hs.ws, j, w', Dropped);
      case WPush(b) =>
        assert !s.wq.finished;
        WorkersRelease(c, s.hist.loc, s.hs.ws, j, w', AtWriteQueue);
      case _ => WorkersAdvance(c, s.hist.loc, s.hs.ws, j, w');
    }
  }

  lemma WorkerKeepsOthers(c: Config, s: State, j: nat)
    requires Inv(c, s) && Handshake.WorkersShut(c, s) && WorkerCan(c, s, j) && c.hasher
    ensures var s' := WorkerStep(c, s, j);
      && ReaderAt(c, s'.hist.loc, s'.rd, s'.hist.restored)
      && WriterAt(c, s'.hist.loc, s'.wr)
  {
    var s' := WorkerStep(c, s, j);
    var loc := s.hist.loc;
    if s.hs.ws[j].WPop? && s.hq.items != [] {
      ReaderMoveBehind(c, loc, s.rd, s.hist.restored, s.hq.items[0].index, AtWorker(j));
      WriterMoveElsewhere(c, loc, s.wr, s.hq.items[0].index, AtWorker(j));
    } else if s.hs.ws[j].WFree? {
      ReaderMoveBehind(c, loc, s.rd, s.hist.restored, s.hs.ws[j].b.index, Dropped);
      WriterMoveElsewhere(c, loc, s.wr, s.hs.ws[j].b.index, Dropped);
    } else if s.hs.ws[j].WPush? {
      assert !s.wq.finished;
      ReaderMoveBehind(c, loc, s.rd, s.hist.restored, s.hs.ws[j].b.index, AtWriteQueue);
      WriterMoveElsewhere(c, loc, s.wr, s.hs.ws[j].b.index, AtWriteQueue);
    } else {
      assert s'.hist.loc == s.hist.loc && s'.hist.restored == s.hist.restored && s'.rd == s.rd && s'.wr == s.wr;
    }
  }

  lemma WorkerSetsBits(c: Config, s: State, j: nat)
    requires WorkerCan(c, s, j) && WorkersAt(c, s.hist.loc, s.hs.ws) && BitsAt(c, s)
    requires !s.hs.ws[j].WFree? && !s.hs.ws[j].WPop? && !s.hs.ws[j].WPush?
    ensures WorkerStep(c, s, j).hist.loc == s.hist.loc && BitsAt(c, WorkerStep(c, s, j))
  {
    var w := s.hs.ws[j];
    if w.WStore? {
      StoreIsTruthful(c, s.hist.loc, s.hist.restored, s.bits.processed, w.i, w.bits);
    } else {
      assert WorkerStep(c, s, j).bits == s.bits;
      if w.WLoad? { LoadIsTruthful(c, s, w.i); }
    }
  }

  lemma WorkerKeepsBits(c: Config, s: State, j: nat)
    requires Inv(c, s) && Handshake.WorkersShut(c, s) && WorkerCan(c, s, j) && c.hasher
    ensures BitsAt(c, WorkerStep(c, s, j))
  {
    var s' := WorkerStep(c, s, j);
    match s.hs.ws[j] {
      case WPop => if s.hq.items != [] { BitsMove(c, s, s', s.hq.items[0].index, AtWorker(j)); }
      case WFree(b) => BitsMove(c, s, s', b.index, Dropped);
      case WPush(b) =>
        assert !s.wq.finished;
        BitsMove(c, s, s', b.index, AtWriteQueue);
      case _ => WorkerSetsBits(c, s, j);
    }
  }

  lemma WorkerKeeps(c: Config, s: State, j: nat)
    requires Inv(c, s) && Handshake.Inv(c, s) && WorkerCan(c, s, j) && c.hasher
    ensures Inv(c, WorkerStep(c, s, j))
  {
    WorkerSizes(c, s, j);
    WorkerKeepsQueues(c, s, j);
    WorkerKeepsWorkers(c, s, j);
    WorkerKeepsOthers(c, s, j);
    WorkerKeepsBits(c, s, j);
  }

  // ---------------------------------------------------------------- writer

  lemma WriterKeepsQueues(c: Config, s: State, fail: bool, junk: Block)
    requires Inv(c, s) && WriterCan(c, s)
    ensures var s' := WriterStep(c, s, fail, junk);
      && QueueAt(c, s'.hist.loc, s'.hq.items, AtHashQueue)
      && QueueAt(c, s'.hist.loc, s'.wq.items, AtWriteQueue)
  {
    var loc := s.hist.loc;
    if s.wr.pc.NPop? && s.wq.items != [] {
      QueuePop(c, loc, s.wq.items, AtWriteQueue, AtWriter);
      QueueMoveElsewhere(c, loc, s.hq.items, AtHashQueue, s.wq.items[0].index, AtWriter);
    } else if s.wr.pc.NGot? {
      var to := if s.wr.failed then Lost else Written;
      QueueMoveElsewhere(c, loc, s.hq.items, AtHashQueue, s.wr.pc.b.index, to);
      QueueMoveElsewhere(c, loc, s.wq.items, AtWriteQueue, s.wr.pc.b.index, to);
    }
  }

  lemma WriterTakes(c: Config, loc: seq<Loc>, wr: WriterState, b: Item)
    requires |loc| == c.n && WriterAt(c, loc, wr) && wr.pc.NPop? && InRange(c, b) && loc[b.index].AtWriteQueue?
    ensures WriterAt(c, loc[b.index := AtWriter], wr.(pc := NGot(b)))
  {}

  lemma WriterSettlesBlock(c: Config, loc: seq<Loc>, wr: WriterState, wr': WriterState, to: Loc)
    requires |loc| == c.n && WriterAt(c, loc, wr) && wr.pc.NGot?
    requires wr'.failed == wr.failed && wr'.fails >= wr.fails
    requires if wr.failed then to.Lost? && wr'.pc.NTop?
             else to.Written? && (wr'.pc.NSetW? || wr'.pc.NFail?) && wr'.pc.b == wr.pc.b
    ensures WriterAt(c, loc[wr.pc.b.index := to], wr')
  {}

  lemma WriterKeepsPlaces(c: Config, s: State, fail: bool, junk: Block)
    requires WriterCan(c, s) && WriterAt(c, s.hist.loc, s.wr)
    requires !s.wr.pc.NGot? && !(s.wr.pc.NPop? && s.wq.items != [])
    ensures var s' := WriterStep(c, s, fail, junk); s'.hist == s.hist && WriterAt(c, s'.hist.loc, s'.wr)
  {}

  lemma WriterKeepsWriter(c: Config, s: State, fail: bool, junk: Block)
    requires WriterCan(c, s) && WriterAt(c, s.hist.loc, s.wr) && QueueAt(c, s.hist.loc, s.wq.items, AtWriteQueue)
    ensures var s' := WriterStep(c, s, fail, junk); WriterAt(c, s'.hist.loc, s'.wr)
  {
    var s' := WriterStep(c, s, fail, junk);
    if s.wr.pc.NPop? && s.wq.items != [] {
      WriterTakes(c, s.hist.loc, s.wr, s.wq.items[0]);
    } else if s.wr.pc.NGot? {
      WriterSettlesBlock(c, s.hist.loc, s.wr, s'.wr, if s.wr.failed then Lost else Written);
    } else {
      WriterKeepsPlaces(c, s, fail, junk);
    }
  }

  lemma WriterKeepsOthers(c: Config, s: State, fail: bool, junk: Block)
    requires Inv(c, s) && WriterCan(c, s)
    ensures var s' := WriterStep(c, s, fail, junk);
      && ReaderAt(c, s'.hist.loc, s'.rd, s'.hist.restored)
      && WorkersAt(c, s'.hist.loc, s'.hs.ws)
  {
    var s' := WriterStep(c, s, fail, junk);
    var loc := s.hist.loc;
    if s.wr.pc.NPop? && s.wq.items != [] {
      ReaderMoveBehind(c, loc, s.rd, s.hist.restored, s.wq.items[0].index, AtWriter);
      WorkersMoveElsewhere(c, loc, s.hs.ws, s.wq.items[0].index, AtWriter);
    } else if s.wr.pc.NGot? {
      var to := if s.wr.failed then Lost else Written;
      ReaderMoveBehind(c, loc, s.rd, s.hist.restored, s.wr.pc.b.index, to);
      WorkersMoveElsewhere(c, loc, s.hs.ws, s.wr.pc.b.index, to);
    } else {
      assert s'.hist.loc == s.hist.loc;
    }
  }

  lemma WriterKeepsBits(c: Config, s: State, fail: bool, junk: Block)
    requires Inv(c, s) && WriterCan(c, s)
    ensures BitsAt(c, WriterStep(c, s, fail, junk))
  {
    var s' := WriterStep(c, s, fail, junk);
    match s.wr.pc {
      case NPop => if s.wq.items != [] { BitsMove(c, s, s', s.wq.items[0].index, AtWriter); }
      case NGot(b) => BitsMove(c, s, s', b.index, if s.wr.failed then Lost else Written);
      case NLoad(b) => LoadIsTruthful(c, s, b.index);
      case NStore(b, loaded) =>
        StoreIsTruthful(c, s.hist.loc, s.hist.restored, s.bits.processed, b.index, loaded);
      case _ => assert s'.hist == s.hist && s'.hs == s.hs && s'.bits.processed == s.bits.processed;
    }
  }

  lemma WriterKeeps(c: Config, s: State, fail: bool, junk: Block)
    requires Inv(c, s) && WriterCan(c, s)
    ensures Inv(c, WriterStep(c, s, fail, junk))
  {
    WriterSizes(c, s, fail, junk);
    WriterKeepsQueues(c, s, fail, junk);
    WriterKeepsWriter(c, s, fail, junk);
    WriterKeepsOthers(c, s, fail, junk);
    WriterKeepsBits(c, s, fail, junk);
  }

  lemma ControlKeeps(c: Config, s: State, s': State)
    requires Inv(c, s) && ControlFrame(s, s')
    ensures Inv(c, s')
  {}
}
