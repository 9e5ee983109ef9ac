/** Runs of the threads in which nothing fails and nobody aborts. */
module QuietRuns {
  import opened Common
  import opened Pipeline
  import opened Frames
  import opened Stages
  import opened Durability
  import opened Session
  import opened Convergence
  import opened Progress
  import Bounds
  import ControlThread
  import Delivery
  import Handshake
  import Ownership

  // Nothing has failed and nobody has aborted.
  ghost predicate Smooth(s: State) {
    && ControlThread.NoAbort(s)
    && !s.rd.status.Failed? && !s.wr.status.Failed? && !s.wr.failed && s.wr.fails == 0 && !s.wr.pc.NFail?
    && forall j :: 0 <= j < |s.hs.ws| && Handshake.Exited(s.hs.ws[j]) ==> s.hs.status.Succeed?
  }

  predicate Paused(s: State) { s.rd.pc.RPause? && s.ct.pause }

  predicate Starved(s: State) { s.rd.pc.RFetch? && FirstFree(s.pool.alloc) == ALLOCATOR_BLOCKS }

  // The steps of the threads, with nothing failing.
  function Steps(s: State): set<Action> {
    {Reader(false), Writer(false, [])} + set j | 0 <= j < |s.hs.ws| :: Worker(j)
  }

  predicate Quietly(c: Config, s: State, a: Action) { a in Steps(s) && Enabled(c, s, a) && !Spins(s, a) }

  lemma ReaderStaysSmooth(c: Config, s: State)
    requires Smooth(s) && ReaderCan(c, s, false)
    ensures Smooth(ReaderStep(c, s, false))
  {}

  lemma WorkerStaysSmooth(c: Config, s: State, j: nat)
    requires Smooth(s) && WorkerCan(c, s, j)
    ensures Smooth(WorkerStep(c, s, j))
  {}

  lemma WriterStaysSmooth(c: Config, s: State)
    requires Smooth(s) && WriterCan(c, s)
    ensures Smooth(WriterStep(c, s, false, []))
  {}

  // Such a step is tolerated whatever may fail, and leaves no trace but on the session itself.
  lemma StaysSmooth(c: Config, s: State, a: Action)
    requires ValidConfig(c) && Ownership.Inv(c, s) && Smooth(s) && Quietly(c, s, a)
    ensures Smooth(Next(c, s, a)) && NoTrace(s, Next(c, s, a)) && ThreadStep(a) && Harmless(c, s, a)
  {
    SoundBuffers(c, s, a);
    ThreadLeavesNoTrace(c, s, a, {});
    match a
    case Reader(_) => ReaderStaysSmooth(c, s);
    case Worker(j) => WorkerStaysSmooth(c, s, j);
    case Writer(_, _) => WriterStaysSmooth(c, s);
  }

  // Until all threads have exited one of them can go on.
  lemma SomeoneGoesOn(c: Config, s: State) returns (a: Action)
    requires ValidConfig(c) && Session.Core(c, s) && Smooth(s) && !s.ct.pause && !AllExited(s)
    ensures Quietly(c, s, a)
  {
    if !s.rd.pc.RDone? && !Starved(s) {
      ReaderMoves(c, s);
      a := Reader(false);
    } else if !s.rd.pc.RDone? {
      a := StarvedIsServed(c, s);
    } else if j: nat :| j < |s.hs.ws| && !s.hs.ws[j].WDone? {
      WorkerMoves(c, s, j);
      a := Worker(j);
    } else {
      WriterMoves(c, s);
      a := Writer(false, []);
    }
  }

  lemma SmoothEnd(c: Config, s: State)
    requires ValidConfig(c) && Session.Core(c, s) && Smooth(s) && AllExited(s)
    ensures Succeeded(s)
  {
    if c.hasher { assert Handshake.Exited(s.hs.ws[0]); }
  }

  // ---------------------------------------------------------------- following one block

  // Past the reader, but not yet with the writer.
  predicate OnItsWay(l: Loc) { l.AtHashQueue? || l.AtWorker? || l.AtWriteQueue? }

  predicate NotYet(l: Loc) { l.Todo? || l.AtReader? || OnItsWay(l) }

  // The writer is about to write the block, or a worker has just dropped it.
  ghost predicate AtItsEnd(s: State, i: nat) {
    || (s.wr.pc.NGot? && s.wr.pc.b.index == i)
    || exists j :: 0 <= j < |s.hs.ws| && s.hs.ws[j] == WLoad(i)
  }

  // Whoever has the block can go on, even while the reader is paused.
  lemma HolderGoesOn(c: Config, s: State, i: nat) returns (a: Action)
    requires ValidConfig(c) && Session.Core(c, s) && Smooth(s) && i < c.n && OnItsWay(s.hist.loc[i])
    ensures Quietly(c, s, a) && !a.Reader?
  {
    if s.hist.loc[i].AtWorker? {
      WorkerMoves(c, s, s.hist.loc[i].j);
      a := Worker(s.hist.loc[i].j);
    } else if s.hist.loc[i].AtHashQueue? {
      assert s.hq.items != [];
      assert c.hasher && !Handshake.Exited(s.hs.ws[0]);
      WorkerMoves(c, s, 0);
      a := Worker(0);
    } else {
      assert s.wq.items != [];
      WriterMoves(c, s);
      a := Writer(false, []);
    }
  }

  // A block does not reach its end unseen, and until then it is neither written nor, before it has
  // been read, hashed.
  ghost predicate BlockMoved(c: Config, s: State, s': State, i: nat)
    requires i < c.n == |s.hist.loc| == |s.copy| == |s.table|
  {
    && |s'.hist.loc| == |s'.copy| == |s'.table| == c.n && s'.copy[i] == s.copy[i]
    && (NotYet(s'.hist.loc[i]) || AtItsEnd(s', i))
    && (OnItsWay(s.hist.loc[i]) ==> OnItsWay(s'.hist.loc[i]) || AtItsEnd(s', i))
    && (!OnItsWay(s.hist.loc[i]) ==> NotYet(s'.hist.loc[i]) && s'.table[i] == s.table[i])
  }

  lemma ReaderMovesBlock(c: Config, s: State, i: nat)
    requires ReaderCan(c, s, false) && Handshake.ReaderShut(c, s)
    requires s.rd.pc.RFetch? ==> s.hist.loc[s.rd.cur].Todo?
    requires s.rd.pc.RPush? ==> s.hist.loc[s.rd.cur].AtReader?
    requires i < c.n && NotYet(s.hist.loc[i])
    ensures BlockMoved(c, s, ReaderStep(c, s, false), i)
  {}

  lemma WorkerMovesOne(c: Config, s: State, j: nat, i: nat)
    requires WorkerCan(c, s, j) && WorkersAt(c, s.hist.loc, s.hs.ws) && QueueAt(c, s.hist.loc, s.hq.items, AtHashQueue)
    requires s.hs.ws[j].WPush? ==> !s.wq.finished
    requires i < c.n && NotYet(s.hist.loc[i])
    ensures BlockMoved(c, s, WorkerStep(c, s, j), i)
  {
    if s.hs.ws[j].WFree? && s.hs.ws[j].b.index == i { assert WorkerStep(c, s, j).hs.ws[j] == WLoad(i); }
  }

  lemma WriterMovesBlock(c: Config, s: State, i: nat)
    requires WriterCan(c, s) && WriterAt(c, s.hist.loc, s.wr) && QueueAt(c, s.hist.loc, s.wq.items, AtWriteQueue)
    requires !s.wr.failed && i < c.n && NotYet(s.hist.loc[i])
    ensures BlockMoved(c, s, WriterStep(c, s, false, []), i)
  {
    QueueHead(c, s.hist.loc, s.wq.items, AtWriteQueue);
  }

  lemma BlockMoves(c: Config, s: State, a: Action, i: nat)
    requires ValidConfig(c) && Stages.Inv(c, s) && Handshake.Inv(c, s) && !s.wr.failed && Quietly(c, s, a)
    requires i < c.n && NotYet(s.hist.loc[i])
    ensures BlockMoved(c, s, Next(c, s, a), i)
  {
    match a
    case Reader(_) => ReaderMovesBlock(c, s, i);
    case Worker(j) => WorkerMovesOne(c, s, j, i);
    case Writer(_, _) => WriterMovesBlock(c, s, i);
  }

  // A changed block is never dropped: it ends with the writer.
  // A worker comes to marking block i only by dropping it.
  lemma LoadsAfterFree(c: Config, s: State, j: nat, k: nat, i: nat)
    requires WorkerCan(c, s, j) && k < |s.hs.ws| && s.hs.ws[k] != WLoad(i)
    requires var ws := WorkerStep(c, s, j).hs.ws; k < |ws| && ws[k] == WLoad(i)
    ensures s.hs.ws[j].WFree? && s.hs.ws[j].b.index == i
  {
    var ws := WorkerStep(c, s, j).hs.ws;
    assert ws == s.hs.ws[j := ws[j]];
  }

  lemma ChangedIsNotDropped(c: Config, s: State, a: Action, i: nat)
    requires ValidConfig(c) && Enabled(c, s, a) && !a.Control? && !a.Crash?
    requires WorkersAt(c, s.hist.loc, s.hs.ws) && DecidedAt(c, s.hist.loc, s.hs.ws)
    requires i < c.n && NotYet(s.hist.loc[i]) && !SameDigest(c, i)
    requires AtItsEnd(Next(c, s, a), i)
    ensures Next(c, s, a).wr.pc.NGot? && Next(c, s, a).wr.pc.b.index == i
  {
    hide WorkerStep;
    var s' := Next(c, s, a);
    if k :| 0 <= k < |s'.hs.ws| && s'.hs.ws[k] == WLoad(i) {
      match a
      case Reader(fail) => ReaderEffect(c, s, fail);
      case Worker(j) =>
        WorkerSizes(c, s, j);
        LoadsAfterFree(c, s, j, k, i);
      case Writer(fail, junk) => WriterLeaves(c, s, fail, junk);
    }
  }

  // ---------------------------------------------------------------- what has ended

  // Blocks that have ended keep their content and their digests, and some bit stays set.
  ghost predicate EndedKept(c: Config, s: State, s': State) {
    && Delivery.EndedStays(c, s, s')
    && |s.table| == |s'.table|
    && (forall i: nat :: Delivery.Ended(c, s, i) && i < |s.table| ==> s'.table[i] == s.table[i])
    && (s.bits.processed != {} ==> s'.bits.processed != {})
  }

  lemma ReaderFrameEnded(c: Config, s: State, fail: bool)
    requires ReaderCan(c, s, fail)
    ensures ReaderStep(c, s, fail).table == s.table && ReaderStep(c, s, fail).bits == s.bits
  {}

  lemma WorkerFrameEnded(c: Config, s: State, j: nat)
    requires WorkerCan(c, s, j) && WorkersAt(c, s.hist.loc, s.hs.ws)
    ensures var s' := WorkerStep(c, s, j);
      && |s'.table| == |s.table| && (s.bits.processed != {} ==> s'.bits.processed != {})
      && forall i: nat :: Delivery.Ended(c, s, i) && i < |s.table| ==> s'.table[i] == s.table[i]
  {
    if s.hs.ws[j].WStore? { assert s.hs.ws[j].i in WorkerStep(c, s, j).bits.processed; }
  }

  lemma WriterFrameEnded(c: Config, s: State, fail: bool, junk: Block)
    requires WriterCan(c, s)
    ensures var s' := WriterStep(c, s, fail, junk);
      s'.table == s.table && (s.bits.processed != {} ==> s'.bits.processed != {})
  {
    if s.wr.pc.NStore? { assert s.wr.pc.b.index in WriterStep(c, s, fail, junk).bits.processed; }
  }

  lemma EndedKeptStep(c: Config, s: State, a: Action)
    requires ValidConfig(c) && Session.Core(c, s) && Enabled(c, s, a) && ThreadStep(a)
    ensures EndedKept(c, s, Next(c, s, a))
  {
    Delivery.EndedStep(c, s, a);
    match a
    case Reader(fail) => ReaderFrameEnded(c, s, fail);
    case Worker(j) => WorkerFrameEnded(c, s, j);
    case Writer(fail, junk) => WriterFrameEnded(c, s, fail, junk);
  }

  lemma EndedKeptTwice(c: Config, s: State, mid: State, s': State)
    requires EndedKept(c, s, mid) && EndedKept(c, mid, s')
    ensures EndedKept(c, s, s')
  {
    Delivery.StaysTwice(c, s, mid, s');
  }
}
