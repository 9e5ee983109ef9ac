/** The loops of the threads, each run as long as it need not wait for another one, and a whole
    session under any scheduler. */
module Threads {
  import opened Common
  import opened Pipeline
  import opened Frames
  import opened Runs
  import opened Stages
  import opened Durability
  import opened Session
  import opened Convergence
  import opened Progress
  import opened QuietRuns
  import opened Stopping
  import Bounds
  import ControlThread
  import Handshake
  import Ownership

  // ---------------------------------------------------------------- reader

  // The queue the reader feeds.
  function Output(c: Config, s: State): Queue { if c.hasher then s.hq else s.wq }

  function Indices(q: seq<Item>): seq<nat> { seq(|q|, k requires 0 <= k < |q| => q[k].index) }

  // Up to where the reader has handed out its blocks.
  function HandedTo(rd: ReaderState): nat { if rd.pc.RCount? then rd.cur + 1 else rd.cur }

  // The blocks from `from` on that the checkpoint does not have, in order.
  function Due(c: Config, bits: set<nat>, from: nat, to: nat): seq<nat> {
    if from >= to then []
    else Due(c, bits, from, to - 1) + (if c.checkpoint && to - 1 in bits then [] else [to - 1])
  }

  lemma {:induction false} DueChain(c: Config, bits: set<nat>, from: nat, mid: nat, to: nat)
    requires from <= mid <= to
    ensures Due(c, bits, from, to) == Due(c, bits, from, mid) + Due(c, bits, mid, to)
  {
    if mid < to { DueChain(c, bits, from, mid, to - 1); }
  }

  lemma ReaderHands(c: Config, s: State, fail: bool)
    requires ReaderCan(c, s, fail) && Handshake.ReaderShut(c, s)
    requires s.rd.cur <= c.n && (s.rd.pc.RCount? ==> s.rd.cur < c.n)
    requires s.rd.pc.RFetch? || s.rd.pc.RRead? || s.rd.pc.RPush? ==> !(c.checkpoint && s.rd.cur in s.bits.processed)
    ensures var s' := ReaderStep(c, s, fail);
      && s'.bits == s.bits && HandedTo(s.rd) <= HandedTo(s'.rd)
      && Indices(Output(c, s').items) ==
         Indices(Output(c, s).items) + Due(c, s.bits.processed, HandedTo(s.rd), HandedTo(s'.rd))
  {
    var s' := ReaderStep(c, s, fail);
    var from := HandedTo(s.rd);
    assert Due(c, s.bits.processed, from, from) == [];
    assert Due(c, s.bits.processed, from, from + 1) == if c.checkpoint && from in s.bits.processed then [] else [from];
  }

  // Past the look at the abort flag, with a block not handed out yet.
  predicate OnABlock(rd: ReaderState) {
    rd.pc.RPause? || rd.pc.RSkip? || rd.pc.RFetch? || rd.pc.RRead? || rd.pc.RPush?
  }

  // How far the reader gets before it looks at the abort flag again.
  function ReachesTo(rd: ReaderState): nat { HandedTo(rd) + (if OnABlock(rd) then 1 else 0) }

  lemma AbortedReaderStep(c: Config, s: State, fail: bool)
    requires ReaderCan(c, s, fail) && s.ct.rabort
    ensures ReachesTo(ReaderStep(c, s, fail).rd) <= ReachesTo(s.rd)
  {}

  // A read that fails, or a wait for a buffer that times out.
  predicate ReadError(s: State, fail: bool) { fail && ReadFails(s) }

  lemma ReaderFailsOnErrors(c: Config, s: State, fail: bool)
    requires ReaderCan(c, s, fail) && Handshake.ReaderShut(c, s)
    ensures ReaderStep(c, s, fail).rd.status.Failed? <==> s.rd.status.Failed? || ReadError(s, fail)
  {}

  // The turn in which the error came, if one has come.
  function Erred(s: State, fails: nat -> bool, turn: nat, error: Option<nat>): Option<nat> {
    if ReadError(s, fails(turn)) then Some(turn) else error
  }

  // A reader that had not ended has failed exactly if an error has come.
  predicate FailsOnErrors(s0: State, s: State, fails: nat -> bool, error: Option<nat>) {
    && (!Terminal(s0.rd.status) ==> (s.rd.status.Failed? <==> error.Some?))
    && (error.Some? ==> fails(error.value))
  }

  // How the reader's loop ends when it has not been at its end before.
  predicate ReaderEnds(c: Config, s: State) {
    && (s.rd.status.Succeed? <==> s.rd.cur >= c.n)
    && (s.rd.status.Aborted? ==> s.ct.rabort)
  }

  lemma ReaderTurnEnds(c: Config, s: State, fail: bool)
    requires ReaderCan(c, s, fail) && Handshake.ReaderShut(c, s) && (Terminal(s.rd.status) ==> ReaderEnds(c, s))
    ensures var s' := ReaderStep(c, s, fail); Terminal(s'.rd.status) ==> ReaderEnds(c, s')
  {}

  // What has been handed out so far.
  ghost predicate HandedOutSince(c: Config, s0: State, s: State) {
    && s.bits == s0.bits && HandedTo(s0.rd) <= HandedTo(s.rd)
    && Indices(Output(c, s).items) ==
       Indices(Output(c, s0).items) + Due(c, s0.bits.processed, HandedTo(s0.rd), HandedTo(s.rd))
  }

  // What the reader's loop keeps.
  ghost predicate ReaderLoop(c: Config, s0: State, s: State) {
    && HandedOutSince(c, s0, s)
    && (!Terminal(s0.rd.status) && Terminal(s.rd.status) ==> ReaderEnds(c, s))
    && s.ct == s0.ct && (s0.ct.rabort ==> ReachesTo(s.rd) <= ReachesTo(s0.rd))
  }

  lemma ReaderCanGo(c: Config, s: State, fail: bool)
    requires ValidConfig(c) && Session.Core(c, s)
    requires !s.rd.pc.RDone? && !Paused(s) && (Starved(s) ==> fail)
    ensures ReaderCan(c, s, fail) && !Spins(s, Reader(fail))
  {
    Progress.ReaderMoves(c, s);
  }

  lemma ReaderLooksAhead(c: Config, s: State)
    requires Stages.Inv(c, s)
    ensures s.rd.cur <= c.n && (s.rd.pc.RCount? ==> s.rd.cur < c.n)
    ensures s.rd.pc.RFetch? || s.rd.pc.RRead? || s.rd.pc.RPush? ==> !(c.checkpoint && s.rd.cur in s.bits.processed)
  {}

  lemma ReaderHandsOn(c: Config, s0: State, s: State, fail: bool)
    requires ReaderCan(c, s, fail) && Stages.Inv(c, s) && Handshake.ReaderShut(c, s) && HandedOutSince(c, s0, s)
    ensures HandedOutSince(c, s0, ReaderStep(c, s, fail))
  {
    ReaderLooksAhead(c, s);
    ReaderHands(c, s, fail);
    DueChain(c, s0.bits.processed, HandedTo(s0.rd), HandedTo(s.rd), HandedTo(ReaderStep(c, s, fail).rd));
  }

  lemma ReaderTurn(c: Config, s0: State, s: State, fail: bool)
    requires ReaderCan(c, s, fail) && Stages.Inv(c, s) && Handshake.ReaderShut(c, s) && ReaderLoop(c, s0, s)
    ensures ReaderLoop(c, s0, ReaderStep(c, s, fail))
  {
    hide HandedOutSince;
    ReaderHandsOn(c, s0, s, fail);
    ReaderEffect(c, s, fail);
    if s.ct.rabort { AbortedReaderStep(c, s, fail); }
    if Terminal(s.rd.status) ==> ReaderEnds(c, s) { ReaderTurnEnds(c, s, fail); }
  }

  // ---------------------------------------------------------------- workers

  // The blocks a worker that is left alone works off: its own and those waiting to be hashed.
  predicate WorkersShare(l: Loc, j: nat) { l.AtHashQueue? || l == AtWorker(j) }

  // What has become of them: dropped exactly if unchanged, otherwise handed on.
  ghost predicate WorkedOff(c: Config, before: seq<Loc>, after: seq<Loc>, j: nat)
    requires ValidConfig(c)
  {
    && |before| == |after| == c.n
    && forall i :: 0 <= i < c.n ==>
         if WorkersShare(before[i], j) then
           || WorkersShare(after[i], j)
           || (after[i].Dropped? && SameDigest(c, i))
           || (after[i].AtWriteQueue? && !SameDigest(c, i))
         else after[i] == before[i]
  }

  lemma WorkerCanGo(c: Config, s: State, j: nat)
    requires ValidConfig(c) && Session.Core(c, s) && j < |s.hs.ws|
    requires !s.hs.ws[j].WDone? && (s.hs.ws[j].WPop? ==> CanPop(s.hq))
    ensures WorkerCan(c, s, j) && (s.hs.ws[j].WPush? ==> !s.wq.finished)
  {
    Progress.WorkerMoves(c, s, j);
  }

  // What is left of the hashing queue when the worker looks at the abort flag again.
  function PopsLeft(s: State, j: nat): int
    requires j < |s.hs.ws|
  {
    |s.hq.items| - (if s.hs.ws[j].WPop? then 1 else 0)
  }

  // Nobody else sets bits meanwhile: what the worker has dropped is marked, or is the block at hand. A byte it
  // loaded before it was left alone is stored before it drops anything.
  ghost predicate DropsMarked(before: seq<Loc>, s: State, j: nat)
    requires j < |s.hs.ws| && |before| == |s.hist.loc|
  {
    var w := s.hs.ws[j];
    && (forall i :: 0 <= i < |before| && WorkersShare(before[i], j) && s.hist.loc[i].Dropped? ==>
          i in s.bits.processed || ((w.WLoad? || w.WStore?) && w.i == i))
    && (w.WStore? ==>
          || w.bits == ByteOf(s.bits.processed, w.i / 8)
          || forall i :: 0 <= i < |before| && WorkersShare(before[i], j) ==> !s.hist.loc[i].Dropped?)
  }

  lemma WorkerMarksDrops(c: Config, before: seq<Loc>, s: State, j: nat)
    requires WorkerCan(c, s, j) && |before| == c.n && DropsMarked(before, s, j) && WorkersAt(c, s.hist.loc, s.hs.ws)
    requires QueueAt(c, s.hist.loc, s.hq.items, AtHashQueue) && (s.hs.ws[j].WPush? ==> !s.wq.finished)
    ensures j < |WorkerStep(c, s, j).hs.ws| && |WorkerStep(c, s, j).hist.loc| == c.n
    ensures DropsMarked(before, WorkerStep(c, s, j), j)
  {
    WorkerTakesTo(c, s, j);
    if !s.hs.ws[j].WStore? { assert WorkerStep(c, s, j).bits == s.bits; }
  }

  // What a worker's loop keeps.
  ghost predicate WorkerLoop(c: Config, s0: State, s: State, j: nat)
    requires ValidConfig(c)
  {
    && s.ct == s0.ct && s.wr == s0.wr && s0.wq.items <= s.wq.items && j < |s.hs.ws| == |s0.hs.ws|
    && (s0.ct.habort ==> PopsLeft(s0, j) <= PopsLeft(s, j))
    && |s0.hist.loc| == |s.hist.loc| == c.n && DropsMarked(s0.hist.loc, s, j)
    && (!s.wr.failed ==> WorkedOff(c, s0.hist.loc, s.hist.loc, j))
  }

  lemma WorkerTurnWorks(c: Config, s: State, j: nat, before: seq<Loc>)
    requires ValidConfig(c) && WorkerCan(c, s, j) && WorkersAt(c, s.hist.loc, s.hs.ws)
    requires QueueAt(c, s.hist.loc, s.hq.items, AtHashQueue) && DecidedAt(c, s.hist.loc, s.hs.ws)
    requires s.hs.ws[j].WPush? ==> !s.wq.finished
    requires WorkedOff(c, before, s.hist.loc, j)
    ensures WorkedOff(c, before, WorkerStep(c, s, j).hist.loc, j)
  {}

  lemma WorkerTurn(c: Config, s0: State, s: State, j: nat)
    requires ValidConfig(c) && WorkerCan(c, s, j) && Stages.Inv(c, s) && WorkerLoop(c, s0, s, j)
    requires s.hs.ws[j].WPush? ==> !s.wq.finished
    requires !s.wr.failed ==> DecidedAt(c, s.hist.loc, s.hs.ws)
    ensures WorkerLoop(c, s0, WorkerStep(c, s, j), j)
  {
    if !s.wr.failed { WorkerTurnWorks(c, s, j, s0.hist.loc); }
    WorkerMarksDrops(c, s0.hist.loc, s, j);
  }

  lemma WorkerRests(c: Config, s: State, j: nat)
    requires ValidConfig(c) && Session.Core(c, s) && j < |s.hs.ws|
    requires s.hs.ws[j].WDone? || (s.hs.ws[j].WPop? && !CanPop(s.hq))
    ensures s.ct.habort || s.hq.items == []
    ensures |s.hist.loc| == c.n
    ensures !s.ct.habort ==> forall i :: 0 <= i < c.n ==> !WorkersShare(s.hist.loc[i], j)
  {
    assert Handshake.Exited(s.hs.ws[j]) ==> Handshake.Drained(s);
  }

  // ---------------------------------------------------------------- writer

  predicate WritersShare(l: Loc) { l.AtWriteQueue? || l.AtWriter? }

  // What a Write that succeeds leaves in block i.
  function Stored(c: Config, s0: State, i: nat): Block
    requires i < |c.vol| && i < |s0.copy|
  {
    if NeedToWrite(c.skipEmpty, c.vol[i]) then c.vol[i] else s0.copy[i]
  }

  // What the writer has made of the blocks it held or that waited for it. `spoilt`: the block whose
  // Write has failed since.
  ghost predicate WrittenOff(c: Config, s0: State, s: State, spoilt: Option<nat>)
    requires ValidConfig(c)
  {
    && |s0.hist.loc| == |s.hist.loc| == |s0.copy| == |s.copy| == c.n
    && (HasFailed(s.wr) <==> HasFailed(s0.wr) || spoilt.Some?) && !(HasFailed(s0.wr) && spoilt.Some?)
    && forall i :: 0 <= i < c.n ==>
         if WritersShare(s0.hist.loc[i]) then
           || WritersShare(s.hist.loc[i])
           || (s.hist.loc[i].Lost? && s.wr.failed)
           || (s.hist.loc[i].Written? && (spoilt == Some(i) || s.copy[i] == Stored(c, s0, i)))
         else s.hist.loc[i] == s0.hist.loc[i]
  }

  // Blocks the writer has not come to are as they were.
  ghost predicate Untouched(c: Config, s0: State, s: State) {
    && |s0.hist.loc| == |s.hist.loc| == |s0.copy| == |s.copy| == c.n
    && forall i :: 0 <= i < c.n && (!WritersShare(s0.hist.loc[i]) || WritersShare(s.hist.loc[i])) ==>
         s.copy[i] == s0.copy[i]
  }

  lemma WriterCanGo(c: Config, s: State, fail: bool, junk: Block)
    requires ValidConfig(c) && Session.Core(c, s)
    requires !s.wr.pc.NDone? && (s.wr.pc.NPop? ==> CanPop(s.wq))
    requires s.wr.pc.NGot? && fail ==> s.wr.pc.b.index < c.n && |junk| == |c.vol[s.wr.pc.b.index]|
    ensures Enabled(c, s, Writer(fail, junk))
  {
    Progress.WriterMoves(c, s);
  }

  // The block that this step spoils, if it does.
  function Spoilt(c: Config, s: State, fail: bool, spoilt: Option<nat>): Option<nat>
    requires WriterCan(c, s)
  {
    if s.wr.pc.NGot? && !s.wr.failed && NeedToWrite(c.skipEmpty, s.pool.buf[s.wr.pc.b.slot]) && fail
    then Some(s.wr.pc.b.index) else spoilt
  }

  lemma WriterTouchesIts(c: Config, s0: State, s: State, s': State, i: nat)
    requires Untouched(c, s0, s) && i < c.n && WritersShare(s0.hist.loc[i]) && WritersShare(s.hist.loc[i])
    requires |s'.hist.loc| == c.n && s'.hist.loc == s.hist.loc[i := s'.hist.loc[i]]
    requires |s'.copy| == c.n && s'.copy == s.copy[i := s'.copy[i]]
    requires WritersShare(s'.hist.loc[i]) ==> s'.copy[i] == s.copy[i]
    ensures Untouched(c, s0, s')
  {}

  lemma WriterTurnGot(c: Config, s0: State, s: State, fail: bool, junk: Block, spoilt: Option<nat>)
    requires ValidConfig(c) && WriterCan(c, s) && WriterAt(c, s.hist.loc, s.wr) && s.wr.pc.NGot?
    requires !s.wr.failed ==> Ownership.Owned(c, s.pool, s.wr.pc.b)
    requires WrittenOff(c, s0, s, spoilt) && Untouched(c, s0, s)
    ensures var s' := WriterStep(c, s, fail, junk);
      WrittenOff(c, s0, s', Spoilt(c, s, fail, spoilt)) && Untouched(c, s0, s')
  {
    var s', i := WriterStep(c, s, fail, junk), s.wr.pc.b.index;
    assert s'.hist.loc == s.hist.loc[i := if s.wr.failed then Lost else Written];
    assert s'.copy == s.copy || (!s.wr.failed && s'.copy == s.copy[i := s'.copy[i]]);
    WriterTouchesIts(c, s0, s, s', i);
  }

  lemma WriterTurnMoves(c: Config, s0: State, s: State, s': State, spoilt: Option<nat>)
    requires ValidConfig(c) && WrittenOff(c, s0, s, spoilt) && Untouched(c, s0, s)
    requires s'.copy == s.copy && (HasFailed(s'.wr) <==> HasFailed(s.wr)) && (s.wr.failed ==> s'.wr.failed)
    requires s'.hist.loc == s.hist.loc
             || exists i :: 0 <= i < c.n && s.hist.loc[i].AtWriteQueue? && s'.hist.loc == s.hist.loc[i := AtWriter]
    ensures WrittenOff(c, s0, s', spoilt) && Untouched(c, s0, s')
  {}

  lemma WriterTurnWrites(c: Config, s0: State, s: State, fail: bool, junk: Block, spoilt: Option<nat>)
    requires ValidConfig(c) && WriterCan(c, s) && WriterAt(c, s.hist.loc, s.wr)
    requires QueueAt(c, s.hist.loc, s.wq.items, AtWriteQueue)
    requires !s.wr.failed && s.wr.pc.NGot? ==> Ownership.Owned(c, s.pool, s.wr.pc.b)
    requires WrittenOff(c, s0, s, spoilt) && Untouched(c, s0, s)
    ensures var s' := WriterStep(c, s, fail, junk);
      WrittenOff(c, s0, s', Spoilt(c, s, fail, spoilt)) && Untouched(c, s0, s')
  {
    if s.wr.pc.NGot? {
      WriterTurnGot(c, s0, s, fail, junk, spoilt);
    } else {
      QueueHead(c, s.hist.loc, s.wq.items, AtWriteQueue);
      WriterTurnMoves(c, s0, s, WriterStep(c, s, fail, junk), spoilt);
    }
  }

  // How the writer's loop ends: with success exactly if no Write has failed.
  predicate WriterEnds(s: State) {
    && (s.wr.status.Aborted? ==> s.ct.nabort)
    && (s.wr.pc.NDone? && !s.wr.status.Aborted? ==> (s.wr.status.Succeed? <==> s.wr.fails == 0))
    && (s.wr.pc.NFinal? && !s.wr.status.Aborted? ==> s.wr.status.Succeed?)
    && (s.wr.status.Aborted? || s.wq == Queue([], true))
  }

  lemma WriterTurnEnds(c: Config, s: State, fail: bool, junk: Block)
    requires WriterCan(c, s) && Handshake.WriterShut(s) && (Terminal(s.wr.status) ==> WriterEnds(s))
    ensures var s' := WriterStep(c, s, fail, junk); Terminal(s'.wr.status) ==> WriterEnds(s')
  {}

  // What is left of the write queue when the writer looks at the abort flag again.
  function FetchesLeft(s: State): int { |s.wq.items| - (if s.wr.pc.NPop? then 1 else 0) }

  lemma AbortedWriterStep(c: Config, s: State, fail: bool, junk: Block)
    requires WriterCan(c, s) && s.ct.nabort
    ensures FetchesLeft(WriterStep(c, s, fail, junk)) >= FetchesLeft(s)
  {}

  // What the writer's loop keeps.
  ghost predicate WriterLoop(c: Config, s0: State, s: State, spoilt: Option<nat>)
    requires ValidConfig(c)
  {
    && s.ct == s0.ct && WrittenOff(c, s0, s, spoilt) && Untouched(c, s0, s)
    && (s0.ct.nabort ==> FetchesLeft(s0) <= FetchesLeft(s))
    && (Terminal(s.wr.status) ==> WriterEnds(s))
  }

  lemma WriterTurn(c: Config, s0: State, s: State, fail: bool, junk: Block, spoilt: Option<nat>)
    requires ValidConfig(c) && WriterCan(c, s) && Stages.Inv(c, s) && Handshake.WriterShut(s)
    requires WriterLoop(c, s0, s, spoilt)
    requires !s.wr.failed && s.wr.pc.NGot? ==> Ownership.Owned(c, s.pool, s.wr.pc.b)
    ensures WriterLoop(c, s0, WriterStep(c, s, fail, junk), Spoilt(c, s, fail, spoilt))
  {
    WriterTurnWrites(c, s0, s, fail, junk, spoilt);
    WriterTurnEnds(c, s, fail, junk);
    if s.ct.nabort { AbortedWriterStep(c, s, fail, junk); }
    WriterLeaves(c, s, fail, junk);
  }

  lemma WriterRests(c: Config, s: State)
    requires ValidConfig(c) && Session.Core(c, s) && (Terminal(s.wr.status) ==> WriterEnds(s))
    requires s.wr.pc.NDone? || (s.wr.pc.NPop? && !CanPop(s.wq))
    ensures s.ct.nabort || s.wq.items == []
    ensures |s.hist.loc| == c.n
    ensures !s.ct.nabort ==> forall i :: 0 <= i < c.n ==> !WritersShare(s.hist.loc[i])
  {}

  // ---------------------------------------------------------------- a loop at a time

  // One step of `who` in a loop that started at s0.
  lemma LoopStep(c: Config, who: Who, s0: State, s: State, a: Action)
    requires ValidConfig(c) && Session.Core(c, s) && LeadsBy(c, who, s0, s) && By(who, a)
    requires Enabled(c, s, a) && ThreadStep(a) && !Spins(s, a)
    ensures var s' := Next(c, s, a);
      Session.Core(c, s') && LeadsBy(c, who, s0, s') && StepsLeft(c, s') < StepsLeft(c, s)
  {
    StepKeepsCore(c, s, a);
    StepDecreases(c, s, a);
    var s' := Runs.Step(c, who, s0, s, a);
  }

  lemma ReaderBegins(c: Config, s: State, fails: nat -> bool)
    requires ValidConfig(c) && Session.Core(c, s)
    ensures LeadsBy(c, TheReader, s, s) && ReaderLoop(c, s, s) && FailsOnErrors(s, s, fails, None)
  {
    Stay(c, TheReader, s);
  }

  lemma ReaderRests(c: Config, s: State)
    requires ValidConfig(c) && Session.Core(c, s)
    ensures Sized(c, s) && (!s.wr.failed ==> Ownership.QueueOwned(c, s.pool, Output(c, s).items))
    ensures s.rd.pc.RDone? ==> Output(c, s).finished && Terminal(s.rd.status)
  {}

  lemma ReaderGoesOn(c: Config, s0: State, s: State, fails: nat -> bool, turn: nat, error: Option<nat>)
    requires ValidConfig(c) && Session.Core(c, s) && LeadsBy(c, TheReader, s0, s) && ReaderLoop(c, s0, s)
    requires !s.rd.pc.RDone? && !Paused(s) && (Starved(s) ==> fails(turn)) && FailsOnErrors(s0, s, fails, error)
    ensures ReaderCan(c, s, fails(turn))
    ensures var s' := ReaderStep(c, s, fails(turn));
      && FailsOnErrors(s0, s', fails, Erred(s, fails, turn, error))
      && Session.Core(c, s') && LeadsBy(c, TheReader, s0, s') && ReaderLoop(c, s0, s')
      && StepsLeft(c, s') < StepsLeft(c, s)
  {
    var fail := fails(turn);
    ReaderCanGo(c, s, fail);
    ReaderTurn(c, s0, s, fail);
    ReaderFailsOnErrors(c, s, fail);
    LoopStep(c, TheReader, s0, s, Reader(fail));
  }

  lemma WorkerBegins(c: Config, s: State, j: nat)
    requires ValidConfig(c) && Session.Core(c, s) && j < |s.hs.ws|
    ensures LeadsBy(c, TheWorker(j), s, s) && WorkerLoop(c, s, s, j)
  {
    Stay(c, TheWorker(j), s);
  }

  lemma WorkerTakesTurn(c: Config, s0: State, s: State, j: nat)
    requires ValidConfig(c) && Comparable(c) && Session.Inv(c, s) && WorkerLoop(c, s0, s, j) && j < |s.hs.ws|
    requires !s.hs.ws[j].WDone? && !(s.hs.ws[j].WPop? && !CanPop(s.hq))
    ensures WorkerCan(c, s, j) && WorkerLoop(c, s0, WorkerStep(c, s, j), j)
  {
    WorkerCanGo(c, s, j);
    WorkerTurn(c, s0, s, j);
  }

  lemma WorkerGoesOn(c: Config, s0: State, s: State, j: nat)
    requires ValidConfig(c) && Comparable(c) && Session.Inv(c, s) && LeadsBy(c, TheWorker(j), s0, s)
    requires WorkerLoop(c, s0, s, j) && j < |s.hs.ws|
    requires !s.hs.ws[j].WDone? && !(s.hs.ws[j].WPop? && !CanPop(s.hq))
    ensures WorkerCan(c, s, j)
    ensures var s' := WorkerStep(c, s, j);
      && Session.Inv(c, s') && Session.Core(c, s') && LeadsBy(c, TheWorker(j), s0, s')
      && j < |s'.hs.ws| && WorkerLoop(c, s0, s', j)
      && StepsLeft(c, s') < StepsLeft(c, s)
  {
    hide Session.Core, WorkerLoop;
    WorkerTakesTurn(c, s0, s, j);
    StepKeepsContent(c, s, Worker(j));
    LoopStep(c, TheWorker(j), s0, s, Worker(j));
  }

  // What a Write that fails leaves in its block.
  function Left(s: State, junk: nat -> Block): Block { if s.wr.pc.NGot? then junk(s.wr.pc.b.index) else [] }

  ghost predicate RightLengths(c: Config, junk: nat -> Block) {
    forall i: nat :: i < c.n && i < |c.vol| ==> |junk(i)| == |c.vol[i]|
  }

  lemma WriterBegins(c: Config, s: State)
    requires ValidConfig(c) && Session.Core(c, s) && !Terminal(s.wr.status)
    ensures LeadsBy(c, TheWriter, s, s) && WriterLoop(c, s, s, None)
  {
    Stay(c, TheWriter, s);
  }

  lemma WriterGoesOn(c: Config, s0: State, s: State, fail: bool, junk: nat -> Block, spoilt: Option<nat>)
    requires ValidConfig(c) && Session.Core(c, s) && LeadsBy(c, TheWriter, s0, s) && WriterLoop(c, s0, s, spoilt)
    requires !s.wr.pc.NDone? && !(s.wr.pc.NPop? && !CanPop(s.wq)) && RightLengths(c, junk)
    ensures WriterCan(c, s)
    ensures var s' := WriterStep(c, s, fail, Left(s, junk));
      && Session.Core(c, s') && LeadsBy(c, TheWriter, s0, s') && WriterLoop(c, s0, s', Spoilt(c, s, fail, spoilt))
      && StepsLeft(c, s') < StepsLeft(c, s)
  {
    assert s.wr.pc.NGot? ==> s.wr.pc.b.index < c.n;
    WriterCanGo(c, s, fail, Left(s, junk));
    WriterTurn(c, s0, s, fail, Left(s, junk), spoilt);
    LoopStep(c, TheWriter, s0, s, Writer(fail, Left(s, junk)));
  }

  // What holds each time the scheduler picks a step.
  ghost predicate SessionLoop(c: Config, s0: State, s: State) {
    && ValidConfig(c) && Comparable(c) && Session.Inv(c, s) && Smooth(s) && !s.ct.pause
    && !s.hist.memBad && !s.hist.hashBad && LeadsBy(c, Anyone, s0, s)
  }

  lemma SessionBegins(c: Config, found: seq<Block>, f: Files, readTable: bool, readBits: bool)
    requires ValidConfig(c) && Comparable(c) && StartsRight(c, found, f)
    requires Loads(c, f, readTable, readBits) ==> !f.fileBad && !f.tableBad
    ensures var s := Boot(c, found, f, readTable, readBits); SessionLoop(c, s, s)
  {
    BootKeeps(c, found, f, readTable, readBits);
    Stay(c, Anyone, Boot(c, found, f, readTable, readBits));
  }

  lemma SessionGoesOn(c: Config, s0: State, s: State)
    requires SessionLoop(c, s0, s) && !AllExited(s)
    ensures exists a :: a in Steps(s) && Quietly(c, s, a)
  {
    var a := SomeoneGoesOn(c, s);
  }

  lemma SessionTurn(c: Config, s0: State, s: State, a: Action)
    requires SessionLoop(c, s0, s) && Quietly(c, s, a)
    ensures Enabled(c, s, a) && SessionLoop(c, s0, Next(c, s, a)) && StepsLeft(c, Next(c, s, a)) < StepsLeft(c, s)
  {
    StaysSmooth(c, s, a);
    StepKeepsContent(c, s, a);
    LoopStep(c, Anyone, s0, s, a);
  }

  // ---------------------------------------------------------------- the shared session

  // The threads of a session and the context they share.
  class SharedSession {
    const config: Config
    var state: State

    // Takes up a session in a given state.
    constructor (c: Config, s: State)
      ensures config == c && state == s
    {
      config, state := c, s;
    }

    ghost predicate Valid()
      reads this
    {
      ValidConfig(config) && Session.Core(config, state)
    }

    // The reader's loop. It hands out, in order, every block that the checkpoint does not have, and
    // stops only at its end, at a raised pause flag or for want of a buffer. `fails`: the wait for
    // a buffer times out, or the read fails. It fails exactly on such an error, and once it has been told to
    // abort it hands out at most the block it is on.
    method ReadBlocks(fails: nat -> bool) returns (ghost error: Option<nat>)
      requires Valid()
      modifies this`state
      ensures Valid() && LeadsBy(config, TheReader, old(state), state)
      ensures state.rd.pc.RDone? || Paused(state) || Starved(state)
      ensures state.bits == old(state.bits) && HandedTo(old(state).rd) <= HandedTo(state.rd)
      ensures Indices(Output(config, state).items) ==
              Indices(Output(config, old(state)).items)
              + Due(config, old(state).bits.processed, HandedTo(old(state).rd), HandedTo(state.rd))
      ensures !state.wr.failed ==> Ownership.QueueOwned(config, state.pool, Output(config, state).items)
      ensures state.rd.pc.RDone? ==> Output(config, state).finished
      ensures state.rd.pc.RDone? && !Terminal(old(state).rd.status) ==> ReaderEnds(config, state)
      ensures old(state).ct.rabort ==> HandedTo(state.rd) <= ReachesTo(old(state).rd)
      ensures !Terminal(old(state).rd.status) ==> (state.rd.status.Failed? <==> error.Some?)
      ensures error.Some? ==> fails(error.value)
    {
      hide Session.Core;
      ghost var s0 := state;
      ReaderBegins(config, s0, fails);
      error := None;
      var turn := 0;
      while !state.rd.pc.RDone? && !Paused(state) && !(Starved(state) && !fails(turn))
        invariant Valid() && LeadsBy(config, TheReader, s0, state) && ReaderLoop(config, s0, state)
        invariant FailsOnErrors(s0, state, fails, error)
        decreases StepsLeft(config, state)
      {
        hide ReaderLoop, ReaderStep, FailsOnErrors, Erred;
        ReaderGoesOn(config, s0, state, fails, turn, error);
        error := Erred(state, fails, turn, error);
        state := ReaderStep(config, state, fails(turn));
        turn := turn + 1;
      }
      ReaderRests(config, state);
    }

    // A worker's loop. Whatever waits to be hashed is dropped if it has not changed and handed on
    // if it has, until the queue is empty or the worker is aborted.
    method HashBlocks(j: nat)
      requires Valid() && Comparable(config) && Session.Inv(config, state) && j < |state.hs.ws|
      modifies this`state
      ensures Valid() && Session.Inv(config, state) && LeadsBy(config, TheWorker(j), old(state), state)
      ensures j < |state.hs.ws| && (state.hs.ws[j].WDone? || (state.hs.ws[j].WPop? && state.hq == Queue([], false)))
      ensures state.ct.habort || state.hq.items == []
      ensures !state.wr.failed ==> WorkedOff(config, old(state).hist.loc, state.hist.loc, j)
      ensures !state.ct.habort ==> forall i :: 0 <= i < config.n ==> !WorkersShare(state.hist.loc[i], j)
      ensures old(state).wq.items <= state.wq.items
      ensures old(state).ct.habort ==> |state.hq.items| >= PopsLeft(old(state), j)
      ensures |old(state).hist.loc| == |state.hist.loc| == config.n
      ensures forall i :: 0 <= i < config.n && WorkersShare(old(state).hist.loc[i], j) && state.hist.loc[i].Dropped? ==>
                i in state.bits.processed
    {
      hide Session.Core, Session.Inv, WorkedOff;
      ghost var s0 := state;
      WorkerBegins(config, s0, j);
      while !state.hs.ws[j].WDone? && !(state.hs.ws[j].WPop? && !CanPop(state.hq))
        invariant Valid() && Session.Inv(config, state) && LeadsBy(config, TheWorker(j), s0, state)
        invariant j < |state.hs.ws| && WorkerLoop(config, s0, state, j)
        decreases StepsLeft(config, state)
      {
        hide WorkerLoop, WorkerStep;
        WorkerGoesOn(config, s0, state, j);
        state := WorkerStep(config, state, j);
      }
      WorkerRests(config, state, j);
    }

    // The writer's loop. Whatever waits to be written is written, save the block of a Write that fails
    // and those after it, which are lost, until the queue is empty or the writer is aborted. `junk`:
    // what a failed Write leaves in a block.
    method WriteBlocks(fails: nat -> bool, junk: nat -> Block) returns (ghost spoilt: Option<nat>)
      requires Valid() && !Terminal(state.wr.status)
      requires RightLengths(config, junk)
      modifies this`state
      ensures Valid() && LeadsBy(config, TheWriter, old(state), state)
      ensures state.wr.pc.NDone? || (state.wr.pc.NPop? && state.wq == Queue([], false))
      ensures state.ct.nabort || state.wq.items == []
      ensures WrittenOff(config, old(state), state, spoilt) && Untouched(config, old(state), state)
      ensures !state.ct.nabort ==> forall i :: 0 <= i < config.n ==> !WritersShare(state.hist.loc[i])
      ensures state.wr.pc.NDone? ==> WriterEnds(state)
      ensures old(state).ct.nabort ==> |state.wq.items| >= FetchesLeft(old(state))
    {
      ghost var s0 := state;
      WriterBegins(config, s0);
      var turn := 0;
      spoilt := None;
      while !state.wr.pc.NDone? && !(state.wr.pc.NPop? && !CanPop(state.wq))
        invariant Valid() && LeadsBy(config, TheWriter, s0, state) && WriterLoop(config, s0, state, spoilt)
        decreases StepsLeft(config, state)
      {
        hide Session.Core, WriterLoop, WriterStep;
        WriterGoesOn(config, s0, state, fails(turn), junk, spoilt);
        spoilt := Spoilt(config, state, fails(turn), spoilt);
        state := WriterStep(config, state, fails(turn), Left(state, junk));
        turn := turn + 1;
      }
      WriterRests(config, state);
    }

    // A session from its start or restart to its end, its threads scheduled in any way: when
    // nothing fails and nobody aborts, it ends in success, with every block and digest as it should be.
    method CopySession(found: seq<Block>, f: Files, readTable: bool, readBits: bool)
      requires ValidConfig(config) && Comparable(config) && StartsRight(config, found, f)
      requires Loads(config, f, readTable, readBits) ==> !f.fileBad && !f.tableBad
      modifies this`state
      ensures LeadsBy(config, Anyone, Boot(config, found, f, readTable, readBits), state)
      ensures AllExited(state) && Succeeded(state)
      ensures CopyRight(config, state) && (config.hasher ==> TableRight(config, state))
    {
      state := Boot(config, found, f, readTable, readBits);
      ghost var s0 := state;
      SessionBegins(config, found, f, readTable, readBits);
      while !AllExited(state)
        invariant SessionLoop(config, s0, state)
        decreases StepsLeft(config, state)
      {
        hide SessionLoop;
        SessionGoesOn(config, s0, state);
        var a :| a in Steps(state) && Quietly(config, state, a);
        SessionTurn(config, s0, state, a);
        state := Next(config, state, a);
      }
      SmoothEnd(config, state);
      SuccessfulState(config, state);
    }
  }
}
