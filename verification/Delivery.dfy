/** Nothing is lost, nothing is done twice, and every buffer comes back. */
module Delivery {
  import opened Common
  import opened Pipeline
  import opened Frames
  import opened Stages
  import opened Durability
  import opened Session
  import opened Convergence
  import opened ControlThread
  import Handshake
  import Runs
  import Ownership
  import Bounds
  import Cut

  lemma WhenFinished(c: Config, s: State)
    requires ValidConfig(c) && Handshake.Inv(c, s)
    ensures c.hasher && s.wq.finished ==>
              forall j :: 0 <= j < |s.hs.ws| ==>
                !HasItem(s.hs.ws[j]) && (s.hs.ws[j].WPop? ==> Handshake.HashQueueOver(s))
    ensures c.hasher && s.wq.finished && !s.ct.habort ==> s.hq.finished && s.hq.items == []
    ensures c.hasher && (forall j :: 0 <= j < |s.hs.ws| ==> s.hs.ws[j].WDone?) ==> s.wq.finished
    ensures !c.hasher ==> (s.wq.finished <==> s.rd.pc.RDone?)
  {}

  // The write queue is finished only when no worker holds a block or can still get one, so no
  // push is ever refused; when the hasher was not aborted, the hashing queue is over as well.
  lemma ShutdownHandshake(c: Config, steps: seq<Action>, s: State)
    requires ValidConfig(c) && Reaches(c, Init(c), steps, s)
    ensures !s.hist.refused
    ensures c.hasher && s.wq.finished ==>
              forall j :: 0 <= j < |s.hs.ws| ==>
                !HasItem(s.hs.ws[j]) && (s.hs.ws[j].WPop? ==> Handshake.HashQueueOver(s))
    ensures c.hasher && s.wq.finished && !s.ct.habort ==> s.hq.finished && s.hq.items == []
    ensures c.hasher && (forall j :: 0 <= j < |s.hs.ws| ==> s.hs.ws[j].WDone?) ==> s.wq.finished
    ensures !c.hasher ==> (s.wq.finished <==> s.rd.pc.RDone?)
  {
    ReachableCore(c, steps, s);
    WhenFinished(c, s);
  }

  // A push never waits: at most 32 blocks are in flight, 33 after a failed Write.
  lemma PushNeverWaits(c: Config, steps: seq<Action>, s: State)
    requires ValidConfig(c) && Reaches(c, Init(c), steps, s)
    ensures Bounds.InFlight(c, s) <= (if s.wr.failed then ALLOCATOR_BLOCKS + 1 else ALLOCATOR_BLOCKS)
    ensures |s.hq.items| < QUEUE_SIZE && |s.wq.items| < QUEUE_SIZE
  {
    ReachableCore(c, steps, s);
    Bounds.QueuesShort(c, s);
    Bounds.AllocatedBound(s.pool.alloc);
  }

  // A block that has been read and not yet written or dropped.
  ghost predicate CarriedBlock(s: State, b: Item) {
    || b in s.hq.items
    || b in s.wq.items
    || (exists j :: 0 <= j < |s.hs.ws| && HasItem(s.hs.ws[j]) && s.hs.ws[j].b == b)
    || (s.wr.pc.NGot? && s.wr.pc.b == b)
  }

  // Two blocks in flight never share a buffer, and a buffer keeps what was read into it.
  lemma BuffersAreExclusive(c: Config, steps: seq<Action>, s: State, a: Item, b: Item)
    requires ValidConfig(c) && Reaches(c, Init(c), steps, s) && !s.wr.failed
    requires CarriedBlock(s, a) && CarriedBlock(s, b)
    ensures InRange(c, a) && InRange(c, b) && Sized(c, s)
    ensures a.slot == b.slot <==> a.index == b.index
    ensures s.pool.alloc[a.slot] && s.pool.buf[a.slot] == c.vol[a.index]
  {
    ReachableCore(c, steps, s);
    assert Ownership.Owned(c, s.pool, a) && Ownership.Owned(c, s.pool, b);
    assert Ownership.SlotsAccounted(c, s);
  }

  // ---------------------------------------------------------------- exactly once

  function Order(l: Loc): nat {
    match l
    case Todo => 0 case AtReader => 1 case AtHashQueue => 2 case AtWorker(_) => 3
    case AtWriteQueue => 4 case AtWriter => 5
    case _ => 6
  }

  // A block only ever moves forward, and from its last place nowhere.
  ghost predicate Forward(s: State, s': State) {
    && |s'.hist.loc| == |s.hist.loc|
    && forall i :: 0 <= i < |s.hist.loc| ==>
         s'.hist.loc[i] == s.hist.loc[i] || Order(s.hist.loc[i]) < Order(s'.hist.loc[i])
  }

  // Block i is written only on its way from the writer to its end.
  ghost predicate WrittenOnTheWay(s: State, s': State) {
    && |s'.copy| == |s.copy| == |s.hist.loc| == |s'.hist.loc|
    && forall i :: 0 <= i < |s.copy| && s'.copy[i] != s.copy[i] ==>
         s.hist.loc[i].AtWriter? && s'.hist.loc[i].Written?
  }

  lemma ReaderForward(c: Config, s: State, fail: bool)
    requires ReaderCan(c, s, fail) && ReaderAt(c, s.hist.loc, s.rd, s.hist.restored)
    ensures Forward(s, ReaderStep(c, s, fail)) && ReaderStep(c, s, fail).copy == s.copy
  {
    ReaderEffect(c, s, fail);
  }

  lemma WorkerForward(c: Config, s: State, j: nat)
    requires WorkerCan(c, s, j) && WorkersAt(c, s.hist.loc, s.hs.ws) && QueueAt(c, s.hist.loc, s.hq.items, AtHashQueue)
    ensures Forward(s, WorkerStep(c, s, j)) && WorkerStep(c, s, j).copy == s.copy
  {}

  lemma WriterForward(c: Config, s: State, fail: bool, junk: Block)
    requires WriterCan(c, s) && WriterAt(c, s.hist.loc, s.wr) && QueueAt(c, s.hist.loc, s.wq.items, AtWriteQueue)
    ensures Forward(s, WriterStep(c, s, fail, junk)) && WrittenOnTheWay(s, WriterStep(c, s, fail, junk))
  {
    WriterSizes(c, s, fail, junk);
    WriterTaints(c, s, fail, junk);
    WriterTakesTo(c, s, fail, junk);
    QueueHead(c, s.hist.loc, s.wq.items, AtWriteQueue);
  }

  lemma StepMovesForward(c: Config, s: State, a: Action)
    requires ValidConfig(c) && Session.Core(c, s) && Enabled(c, s, a) && !a.Crash?
    ensures Forward(s, Next(c, s, a)) && WrittenOnTheWay(s, Next(c, s, a))
  {
    match a
    case Reader(fail) => ReaderForward(c, s, fail);
    case Worker(j) => WorkerForward(c, s, j);
    case Writer(fail, junk) => WriterForward(c, s, fail, junk);
    case Control(_, _) =>
  }

  ghost predicate Ended(c: Config, s: State, i: nat) {
    i < c.n == |s.hist.loc| == |s.copy| && Order(s.hist.loc[i]) == 6
  }

  // What has ended stays where it is and as it is.
  ghost predicate EndedStays(c: Config, s: State, s': State) {
    forall i: nat :: Ended(c, s, i) ==> Ended(c, s', i) && s'.hist.loc[i] == s.hist.loc[i] && s'.copy[i] == s.copy[i]
  }

  lemma ForwardKeepsEnded(c: Config, s: State, s': State)
    requires Forward(s, s') && WrittenOnTheWay(s, s')
    ensures EndedStays(c, s, s')
  {}

  lemma StaysTwice(c: Config, s: State, mid: State, s': State)
    requires EndedStays(c, s, mid) && EndedStays(c, mid, s')
    ensures EndedStays(c, s, s')
  {}

  lemma EndedStep(c: Config, s: State, a: Action)
    requires ValidConfig(c) && Session.Core(c, s) && Enabled(c, s, a) && !a.Crash?
    ensures EndedStays(c, s, Next(c, s, a))
  {
    StepMovesForward(c, s, a);
    ForwardKeepsEnded(c, s, Next(c, s, a));
  }

  // Within one run a block that has ended stays where it ended, and its content is not touched again.
  lemma EndedOnce(c: Config, s: State, steps: seq<Action>, s': State)
    requires ValidConfig(c) && Session.Core(c, s) && Reaches(c, s, steps, s') && Runs.NoCrash(steps)
    ensures EndedStays(c, s, s')
  {
    var keep := (t: State) => Session.Core(c, t) && EndedStays(c, s, t);
    forall t: State, a: Action | keep(t) && !a.Crash? && Enabled(c, t, a) ensures keep(Next(c, t, a)) {
      EndedStep(c, t, a);
      StaysTwice(c, s, t, Next(c, t, a));
      StepKeepsCore(c, t, a);
    }
    Runs.Induct(c, keep, (a: Action) => !a.Crash?, s, steps, s');
  }

  lemma AllBuffersFree(c: Config, s: State)
    requires Ownership.Inv(c, s) && !s.wr.failed && s.wr.pc.NDone?
    requires forall i :: 0 <= i < c.n ==> Done(s.hist.loc[i])
    ensures forall k :: 0 <= k < ALLOCATOR_BLOCKS ==> !s.pool.alloc[k]
  {
    assert Ownership.SlotsAccounted(c, s);
  }

  // Success: every block not restored was dropped or consumed by the writer, none is left in a
  // queue or in a thread, and every buffer is free again.
  lemma ExactlyOnce(c: Config, steps: seq<Action>, s: State)
    requires ValidConfig(c) && Reaches(c, Init(c), steps, s) && Succeeded(s)
    ensures |s.hist.loc| == c.n && |s.pool.alloc| == ALLOCATOR_BLOCKS
    ensures forall i :: 0 <= i < c.n ==>
              && (i in s.hist.restored <==> s.hist.loc[i].Restored?)
              && (i !in s.hist.restored ==> s.hist.loc[i].Dropped? || s.hist.loc[i].Written?)
    ensures s.hq.items == [] && s.wq.items == []
    ensures forall k :: 0 <= k < ALLOCATOR_BLOCKS ==> !s.pool.alloc[k]
    ensures !s.wr.failed && s.wr.fails == 0
  {
    ReachableCore(c, steps, s);
    SuccessMeansDone(c, s);
    assert !s.wr.failed;
    AllBuffersFree(c, s);
  }

  // ---------------------------------------------------------------- bitmaps

  lemma NothingDroppedInDirect(c: Config, s: State)
    requires ValidConfig(c) && Session.Core(c, s) && c.mode.Direct?
    ensures forall i :: 0 <= i < c.n ==> !s.hist.loc[i].Dropped?
  {}

  // Whatever stores are lost to races, a set bit names a block that is done, the restored bits
  // survive, and the written bitmap is exact; in DIRECT mode so is the processed one.
  lemma BitsAreTruthful(c: Config, steps: seq<Action>, s: State)
    requires ValidConfig(c) && Reaches(c, Init(c), steps, s)
    ensures |s.hist.loc| == c.n
    ensures forall i :: i in s.bits.processed ==> i < c.n && Done(s.hist.loc[i])
    ensures s.hist.restored <= s.bits.processed
    ensures Succeeded(s) ==> forall i :: 0 <= i < c.n && s.hist.loc[i].Written? ==> i in s.bits.written
    ensures Succeeded(s) && c.mode.Direct? ==> forall i :: 0 <= i < c.n ==> i in s.bits.processed
  {
    hide Handshake.Inv, Bounds.Inv, Counting.Inv, Ownership.Inv;
    ReachableCore(c, steps, s);
    if Succeeded(s) && c.mode.Direct? {
      SuccessMeansDone(c, s);
      NothingDroppedInDirect(c, s);
    }
  }

  // Every snapshot the control thread holds, the first and the second of a refresh as well as the
  // one taken at the end, taken at any interleaving, shows every block it shows processed either
  // written, or dropped as unchanged, or restored from an earlier run; in DIRECT mode it shows it
  // written.
  lemma SnapshotsAreConsistent(c: Config, steps: seq<Action>, s: State, k: nat)
    requires ValidConfig(c) && Reaches(c, Init(c), steps, s) && k < |Whole(s.ct.pc)|
    ensures |s.hist.loc| == c.n
    ensures var snap := Whole(s.ct.pc)[k];
      && (forall i :: i in snap.processed ==>
            i < c.n && (i in snap.written || s.hist.loc[i].Dropped? || s.hist.loc[i].Restored?))
      && (c.mode.Direct? ==> snap.processed <= snap.written)
  {
    ReachableCore(c, steps, s);
    var snap := Whole(s.ct.pc)[k];
    assert TruthfulSnap(c, s.hist.loc, snap) && Cut.Consistent(c, s, snap);
  }

  lemma FilesAreConsistent(c: Config, steps: seq<Action>, s: State)
    requires ValidConfig(c) && Reaches(c, Init(c), steps, s)
    requires c.mode.Direct? && s.files.ckptFile.Some?
    ensures s.files.ckptFile.value.processed <= s.files.ckptFile.value.written
  {
    ReachableCore(c, steps, s);
  }
}
