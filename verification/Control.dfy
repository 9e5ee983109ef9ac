/** The control thread: its flags, and the snapshots it holds and has saved. */
module ControlThread {
  import opened Common
  import opened Pipeline
  import opened Frames
  import opened Stages
  import Handshake

  predicate Bounded(c: Config, x: set<nat>) { forall i :: i in x ==> i < c.n }

  // ---------------------------------------------------------------- flags

  // WaitSessionTerminate has left its loop.
  predicate Ending(pc: ControlPc) {
    pc.FTable? || pc.FFsync? || pc.FSave? || (pc.CEnd? && pc.completed) || ((pc.CCopyP? || pc.CCopyW?) && pc.why.Final?)
  }

  predicate Refreshing(pc: ControlPc) {
    || pc.CTable? || pc.CFsync? || pc.CSaveNew? || pc.CSaveOld? || pc.CResume?
    || ((pc.CCopyP? || pc.CCopyW?) && !pc.why.Final?)
  }

  predicate CutShort(st: Status) { st.Aborting? || st.Aborted? }

  predicate NoAbort(s: State) {
    && !s.ct.rabort && !s.ct.habort && !s.ct.nabort
    && !CutShort(s.rd.status) && !CutShort(s.hs.status) && !CutShort(s.wr.status)
  }

  predicate FlagsInv(s: State) {
    && (Ending(s.ct.pc) ==> AllTerminal(s))
    && (s.ct.pc.CAbort? || (s.ct.pc.CEnd? && !s.ct.pc.completed) || NoAbort(s))
    && (s.ct.pause ==> Refreshing(s.ct.pc))
  }

  // Once the session is seen to have ended, nobody computes a digest, writes a block or sets a bit any more.
  lemma EndedIsStill(c: Config, s: State)
    requires ValidConfig(c) && Handshake.Inv(c, s) && AllTerminal(s) && NoAbort(s)
    ensures s.wr.pc.NFinal? || s.wr.pc.NDone?
    ensures s.rd.pc.RFin? || s.rd.pc.RDone?
    ensures forall j :: 0 <= j < |s.hs.ws| ==> Handshake.Spent(s, s.hs.ws[j])
  {}

  // ---------------------------------------------------------------- snapshots and files

  // The snapshots the control thread holds, whole ones and the one it is copying.
  function Whole(pc: ControlPc): seq<Snap> {
    match pc
    case CCopyP(_, _, why) => if why.Second? then [why.older] else []
    case CCopyW(_, _, _, why) => if why.Second? then [why.older] else []
    case CTable(snap) => [snap]
    case CFsync(snap) => [snap]
    case CSaveNew(newer, older) => [newer, older]
    case CSaveOld(older) => [older]
    case FSave(snap, _) => [snap]
    case _ => []
  }

  function Partial(pc: ControlPc): Snap {
    match pc
    case CCopyP(_, p, _) => Snap(p, {})
    case CCopyW(_, p, w, _) => Snap(p, w)
    case _ => Snap({}, {})
  }

  ghost predicate TruthfulSnap(c: Config, loc: seq<Loc>, snap: Snap)
    requires |loc| == c.n
  {
    Truthful(c, loc, snap.processed) && Bounded(c, snap.written)
  }

  ghost predicate SnapshotsTruthful(c: Config, loc: seq<Loc>, pc: ControlPc)
    requires |loc| == c.n
  {
    && (forall k :: 0 <= k < |Whole(pc)| ==> TruthfulSnap(c, loc, Whole(pc)[k]))
    && TruthfulSnap(c, loc, Partial(pc))
  }

  predicate FilesBounded(c: Config, f: Files) {
    && (f.tableFile.Some? ==> |f.tableFile.value| == c.n)
    && (f.ckptFile.Some? ==> Bounded(c, f.ckptFile.value.processed) && Bounded(c, f.ckptFile.value.written))
  }

  ghost predicate Inv(c: Config, s: State) {
    Sized(c, s) && FlagsInv(s) && SnapshotsTruthful(c, s.hist.loc, s.ct.pc) && FilesBounded(c, s.files)
  }

  // ---------------------------------------------------------------- pipeline steps

  // Blocks that are done stay done, and keep their content.
  ghost predicate Grows(s: State, s': State) {
    && |s'.hist.loc| == |s.hist.loc|
    && |s'.copy| == |s.copy|
    && forall i :: 0 <= i < |s.hist.loc| && Done(s.hist.loc[i]) ==>
         Done(s'.hist.loc[i]) && (i < |s.copy| ==> s'.copy[i] == s.copy[i])
  }

  lemma ReaderGrows(c: Config, s: State, fail: bool)
    requires Stages.Inv(c, s) && ReaderCan(c, s, fail)
    ensures var s' := ReaderStep(c, s, fail);
      && Grows(s, s') && SameTaint(s.hist, s'.hist) && s'.files == s.files && s'.ct == s.ct
      && s'.table == s.table && s'.copy == s.copy
  {
    ReaderEffect(c, s, fail);
  }

  lemma WorkerGrows(c: Config, s: State, j: nat)
    requires Stages.Inv(c, s) && WorkerCan(c, s, j)
    ensures var s' := WorkerStep(c, s, j);
      && Grows(s, s') && s'.hist.memBad == s.hist.memBad && (s.hist.hashBad ==> s'.hist.hashBad)
      && s'.files == s.files && s'.ct == s.ct
      && s'.rd == s.rd && s'.wr == s.wr && s'.copy == s.copy
      && (!HasItem(s.hs.ws[j]) ==> s'.table == s.table)
  {}

  lemma WriterGrows(c: Config, s: State, fail: bool, junk: Block)
    requires Stages.Inv(c, s) && WriterCan(c, s)
    ensures var s' := WriterStep(c, s, fail, junk);
      && Grows(s, s') && (s.hist.memBad ==> s'.hist.memBad) && (s.hist.hashBad ==> s'.hist.hashBad) && s'.ct == s.ct
      && s'.files == s.files.(fileBad := s'.files.fileBad) && (s.files.fileBad ==> s'.files.fileBad)
      && s'.table == s.table && (!s.wr.pc.NGot? ==> s'.copy == s.copy && s'.files == s.files)
  {
    WriterLeaves(c, s, fail, junk);
    WriterTaints(c, s, fail, junk);
    WriterTakesTo(c, s, fail, junk);
    QueueHead(c, s.hist.loc, s.wq.items, AtWriteQueue);
  }

  lemma PipelineKeepsSnapshots(c: Config, s: State, s': State)
    requires Sized(c, s) && Sized(c, s') && Grows(s, s') && s'.ct == s.ct
    requires SnapshotsTruthful(c, s.hist.loc, s.ct.pc)
    ensures SnapshotsTruthful(c, s'.hist.loc, s'.ct.pc)
  {}

  lemma ReaderKeepsFlags(c: Config, s: State, fail: bool)
    requires Handshake.ReaderShut(c, s) && FlagsInv(s) && ReaderCan(c, s, fail)
    ensures FlagsInv(ReaderStep(c, s, fail))
  {}

  lemma ReaderKeeps(c: Config, s: State, fail: bool)
    requires Stages.Inv(c, s) && Handshake.Inv(c, s) && Inv(c, s) && ReaderCan(c, s, fail)
    ensures Inv(c, ReaderStep(c, s, fail))
  {
    ReaderSizes(c, s, fail);
    ReaderGrows(c, s, fail);
    PipelineKeepsSnapshots(c, s, ReaderStep(c, s, fail));
    ReaderKeepsFlags(c, s, fail);
  }

  lemma WorkerKeepsFlags(c: Config, s: State, j: nat)
    requires FlagsInv(s) && WorkerCan(c, s, j)
    ensures FlagsInv(WorkerStep(c, s, j))
  {}

  lemma WorkerKeeps(c: Config, s: State, j: nat)
    requires Stages.Inv(c, s) && Inv(c, s) && WorkerCan(c, s, j)
    ensures Inv(c, WorkerStep(c, s, j))
  {
    WorkerSizes(c, s, j);
    WorkerGrows(c, s, j);
    PipelineKeepsSnapshots(c, s, WorkerStep(c, s, j));
    WorkerKeepsFlags(c, s, j);
  }

  lemma WriterKeepsFlags(c: Config, s: State, fail: bool, junk: Block)
    requires Handshake.WriterShut(s) && FlagsInv(s) && WriterCan(c, s)
    ensures FlagsInv(WriterStep(c, s, fail, junk))
  {}

  lemma WriterKeeps(c: Config, s: State, fail: bool, junk: Block)
    requires Stages.Inv(c, s) && Handshake.Inv(c, s) && Inv(c, s) && WriterCan(c, s)
    ensures Inv(c, WriterStep(c, s, fail, junk))
  {
    WriterSizes(c, s, fail, junk);
    WriterGrows(c, s, fail, junk);
    PipelineKeepsSnapshots(c, s, WriterStep(c, s, fail, junk));
    WriterKeepsFlags(c, s, fail, junk);
  }

  // ---------------------------------------------------------------- control steps

  lemma ControlKeepsFlags(c: Config, s: State, choice: Choice, ok: bool)
    requires FlagsInv(s) && ControlCan(c, s, choice)
    ensures FlagsInv(ControlStep(c, s, choice, ok))
  {}

  lemma ControlKeepsSnapshots(c: Config, s: State, choice: Choice, ok: bool)
    requires Inv(c, s) && BitsAt(c, s) && ControlCan(c, s, choice)
    ensures SnapshotsTruthful(c, s.hist.loc, NextPc(c, s, choice, ok))
  {
    var pc, pc' := s.ct.pc, NextPc(c, s, choice, ok);
    if |Whole(pc)| > 0 { assert TruthfulSnap(c, s.hist.loc, Whole(pc)[0]); }
    if |Whole(pc)| > 1 { assert TruthfulSnap(c, s.hist.loc, Whole(pc)[1]); }
    assert TruthfulSnap(c, s.hist.loc, Partial(pc));
  }

  lemma ControlKeepsFiles(c: Config, s: State, ok: bool)
    requires Inv(c, s)
    ensures FilesBounded(c, NextFiles(c, s, ok))
  {
    var pc := s.ct.pc;
    if |Whole(pc)| > 0 { assert TruthfulSnap(c, s.hist.loc, Whole(pc)[0]); }
  }

  lemma ControlKeeps(c: Config, s: State, choice: Choice, ok: bool)
    requires Stages.Inv(c, s) && Inv(c, s) && ControlCan(c, s, choice)
    ensures Inv(c, ControlStep(c, s, choice, ok))
  {
    ControlFrames(c, s, choice, ok);
    ControlKeepsFlags(c, s, choice, ok);
    ControlKeepsSnapshots(c, s, choice, ok);
    ControlKeepsFiles(c, s, ok);
  }
}
