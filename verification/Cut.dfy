/** Consistent cut: a snapshot of both bitmaps, copied byte by byte while the threads go on,
    never shows a block processed by the writer without showing it written. */
module Cut {
  import opened Common
  import opened Pipeline
  import opened Frames
  import opened Stages
  import opened ControlThread

  // In DIRECT mode every processed block has been written; otherwise those this run has written.
  predicate MustBeWritten(c: Config, l: Loc) { l.Written? || c.mode.Direct? }

  ghost predicate Marked(c: Config, loc: seq<Loc>, x: set<nat>, w: set<nat>)
    requires |loc| == c.n
  {
    forall i :: i in x && i < c.n && MustBeWritten(c, loc[i]) ==> i in w
  }

  ghost predicate MarkedUpTo(c: Config, loc: seq<Loc>, k: nat, x: set<nat>, w: set<nat>)
    requires |loc| == c.n
  {
    forall i :: i in x && i < c.n && i / 8 < k && MustBeWritten(c, loc[i]) ==> i in w
  }

  ghost predicate Consistent(c: Config, s: State, snap: Snap)
    requires |s.hist.loc| == c.n
  {
    Marked(c, s.hist.loc, snap.processed, snap.written)
  }

  ghost predicate BitmapsMarked(c: Config, s: State)
    requires |s.hist.loc| == c.n
  {
    && Marked(c, s.hist.loc, s.bits.processed, s.bits.written)
    && (forall j :: 0 <= j < |s.hs.ws| && s.hs.ws[j].WStore? ==>
          Marked(c, s.hist.loc, s.hs.ws[j].bits, s.bits.written))
    && (s.wr.pc.NStore? ==> Marked(c, s.hist.loc, s.wr.pc.bits, s.bits.written))
    && (s.wr.pc.NLoad? || s.wr.pc.NStore? ==> s.wr.pc.b.index in s.bits.written)
    && (c.mode.Direct? ==>
          && (forall j :: 0 <= j < |s.hs.ws| ==> !s.hs.ws[j].WFree? && !s.hs.ws[j].WLoad? && !s.hs.ws[j].WStore?)
          && (forall i :: 0 <= i < c.n ==> !s.hist.loc[i].Dropped?))
  }

  // The writer is the only thread to set written bits, and in DIRECT mode processed bits:
  // no such bit is ever lost.
  ghost predicate NothingLost(c: Config, s: State)
    requires |s.hist.loc| == c.n
  {
    forall i :: 0 <= i < c.n && s.hist.loc[i].Written? ==>
      && (i in s.bits.written || (Finishing(s.wr.pc) && (s.wr.pc.NFail? || s.wr.pc.NSetW?) && s.wr.pc.b.index == i))
      && (c.mode.Direct? ==>
            i in s.bits.processed || (Finishing(s.wr.pc) && !s.wr.pc.NFree? && s.wr.pc.b.index == i))
  }

  ghost predicate SingleSetter(c: Config, s: State) {
    c.mode.Direct? && s.wr.pc.NStore? ==> s.wr.pc.bits == ByteOf(s.bits.processed, s.wr.pc.b.index / 8)
  }

  ghost predicate SnapshotCut(c: Config, s: State)
    requires |s.hist.loc| == c.n
  {
    && (forall k :: 0 <= k < |Whole(s.ct.pc)| ==> Consistent(c, s, Whole(s.ct.pc)[k]))
    && (s.ct.pc.CCopyP? || s.ct.pc.CCopyW? ==> Marked(c, s.hist.loc, s.ct.pc.p, s.bits.written))
    && (s.ct.pc.CCopyW? ==> MarkedUpTo(c, s.hist.loc, s.ct.pc.k, s.ct.pc.p, s.ct.pc.w))
  }

  ghost predicate FileCut(c: Config, s: State) {
    c.mode.Direct? && s.files.ckptFile.Some? ==> s.files.ckptFile.value.processed <= s.files.ckptFile.value.written
  }

  // The written bits: those the run started from, and those of blocks it has written.
  ghost predicate WrittenBits(c: Config, s: State)
    requires |s.hist.loc| == c.n
  {
    && s.hist.restoredWritten <= s.bits.written
    && forall i :: i in s.bits.written ==> i < c.n && (i in s.hist.restoredWritten || s.hist.loc[i].Written?)
  }

  ghost predicate Inv(c: Config, s: State) {
    && Sized(c, s)
    && BitmapsMarked(c, s)
    && NothingLost(c, s)
    && SingleSetter(c, s)
    && WrittenBits(c, s)
    && SnapshotCut(c, s)
    && FileCut(c, s)
  }

  // ---------------------------------------------------------------- steps

  // Blocks already done keep their place, and written bits only grow.
  ghost predicate Settles(s: State, s': State) {
    && |s'.hist.loc| == |s.hist.loc|
    && (forall i :: 0 <= i < |s.hist.loc| && Done(s.hist.loc[i]) ==> s'.hist.loc[i] == s.hist.loc[i])
    && s.bits.written <= s'.bits.written && s'.hist.restoredWritten == s.hist.restoredWritten
  }

  lemma SnapshotSettles(c: Config, s: State, s': State)
    requires |s.hist.loc| == c.n && Settles(s, s') && s'.ct == s.ct && SnapshotCut(c, s)
    requires SnapshotsTruthful(c, s.hist.loc, s.ct.pc)
    ensures SnapshotCut(c, s')
  {
    var pc := s.ct.pc;
    forall k | 0 <= k < |Whole(pc)| ensures Consistent(c, s', Whole(pc)[k]) {
      assert TruthfulSnap(c, s.hist.loc, Whole(pc)[k]) && Consistent(c, s, Whole(pc)[k]);
    }
    assert TruthfulSnap(c, s.hist.loc, Partial(pc));
  }

  lemma ReaderSettles(c: Config, s: State, fail: bool)
    requires Stages.Inv(c, s) && ReaderCan(c, s, fail)
    ensures var s' := ReaderStep(c, s, fail);
      && Settles(s, s') && s'.hs == s.hs && s'.wr == s.wr && s'.bits == s.bits && s'.ct == s.ct && s'.files == s.files
      && forall i :: 0 <= i < c.n && Done(s'.hist.loc[i]) ==> s'.hist.loc[i] == s.hist.loc[i]
  {}

  lemma ReaderKeeps(c: Config, s: State, fail: bool)
    requires Inv(c, s) && Stages.Inv(c, s) && SnapshotsTruthful(c, s.hist.loc, s.ct.pc) && ReaderCan(c, s, fail)
    ensures Inv(c, ReaderStep(c, s, fail))
  {
    var s' := ReaderStep(c, s, fail);
    ReaderSizes(c, s, fail);
    ReaderSettles(c, s, fail);
    SnapshotSettles(c, s, s');
  }

  lemma WorkerSettles(c: Config, s: State, j: nat)
    requires Stages.Inv(c, s) && WorkerCan(c, s, j)
    ensures var s' := WorkerStep(c, s, j);
      && Settles(s, s') && s'.wr == s.wr && s'.bits.written == s.bits.written && s'.ct == s.ct && s'.files == s.files
      && forall i :: 0 <= i < c.n && s'.hist.loc[i].Written? ==> s.hist.loc[i].Written?
  {}

  lemma WorkerMarks(c: Config, s: State, s': State, j: nat)
    requires |s.hist.loc| == |s'.hist.loc| == c.n && BitmapsMarked(c, s)
    requires s'.wr == s.wr && s'.bits.written == s.bits.written
    requires j < |s.hs.ws| && |s'.hs.ws| == |s.hs.ws| && s'.hs.ws == s.hs.ws[j := s'.hs.ws[j]]
    requires forall i :: 0 <= i < c.n && s'.hist.loc[i].Written? ==> s.hist.loc[i].Written?
    requires Marked(c, s.hist.loc, s'.bits.processed, s.bits.written)
    requires s'.hs.ws[j].WStore? ==> Marked(c, s.hist.loc, s'.hs.ws[j].bits, s.bits.written)
    requires c.mode.Direct? ==>
               && !s'.hs.ws[j].WFree? && !s'.hs.ws[j].WLoad? && !s'.hs.ws[j].WStore?
               && forall i :: 0 <= i < c.n ==> !s'.hist.loc[i].Dropped?
    ensures BitmapsMarked(c, s')
  {}

  lemma WorkerKeepsMarked(c: Config, s: State, j: nat)
    requires Sized(c, s) && BitmapsMarked(c, s) && Stages.Inv(c, s) && WorkerCan(c, s, j)
    ensures Sized(c, WorkerStep(c, s, j)) && BitmapsMarked(c, WorkerStep(c, s, j))
  {
    WorkerSizes(c, s, j);
    WorkerSettles(c, s, j);
    WorkerMarks(c, s, WorkerStep(c, s, j), j);
  }

  lemma WorkerKeeps(c: Config, s: State, j: nat)
    requires Inv(c, s) && Stages.Inv(c, s) && SnapshotsTruthful(c, s.hist.loc, s.ct.pc) && WorkerCan(c, s, j)
    ensures Inv(c, WorkerStep(c, s, j))
  {
    var s' := WorkerStep(c, s, j);
    WorkerSizes(c, s, j);
    WorkerSettles(c, s, j);
    WorkerKeepsMarked(c, s, j);
    SnapshotSettles(c, s, s');
    if c.mode.Direct? { assert s'.bits == s.bits; }
  }

  lemma WriterSettles(c: Config, s: State, fail: bool, junk: Block)
    requires Stages.Inv(c, s) && WriterCan(c, s)
    ensures var s' := WriterStep(c, s, fail, junk);
      Settles(s, s') && s'.hs == s.hs && s'.ct == s.ct && s'.files.ckptFile == s.files.ckptFile
  {}

  // A block the writer starts on is in no bitmap yet.
  lemma WriterMarksNothing(c: Config, s: State, s': State, i: nat, to: Loc)
    requires Sized(c, s) && BitmapsMarked(c, s) && BitsAt(c, s) && i < c.n && !Done(s.hist.loc[i])
    requires s'.hist.loc == s.hist.loc[i := to] && !to.Dropped?
    requires s'.hs == s.hs && s'.bits == s.bits && !s'.wr.pc.NLoad? && !s'.wr.pc.NStore?
    ensures BitmapsMarked(c, s')
  {}

  lemma WriterKeepsMarked(c: Config, s: State, fail: bool, junk: Block)
    requires Sized(c, s) && BitmapsMarked(c, s) && Stages.Inv(c, s) && WriterCan(c, s)
    ensures Sized(c, WriterStep(c, s, fail, junk)) && BitmapsMarked(c, WriterStep(c, s, fail, junk))
  {
    var s' := WriterStep(c, s, fail, junk);
    WriterSizes(c, s, fail, junk);
    if s.wr.pc.NGot? {
      WriterMarksNothing(c, s, s', s.wr.pc.b.index, if s.wr.failed then Lost else Written);
    } else if s.wr.pc.NPop? && s.wq.items != [] {
      WriterMarksNothing(c, s, s', s.wq.items[0].index, AtWriter);
    } else {
      assert s'.hist == s.hist && s'.hs == s.hs;
    }
  }

  lemma WriterKeepsExact(c: Config, s: State, fail: bool, junk: Block)
    requires Inv(c, s) && Stages.Inv(c, s) && WriterCan(c, s)
    ensures var s' := WriterStep(c, s, fail, junk); Sized(c, s') && NothingLost(c, s') && SingleSetter(c, s')
  {
    WriterSizes(c, s, fail, junk);
  }

  lemma WriterKeepsWritten(c: Config, s: State, fail: bool, junk: Block)
    requires WriterCan(c, s) && Stages.Inv(c, s) && WrittenBits(c, s)
    ensures var s' := WriterStep(c, s, fail, junk); Sized(c, s') && WrittenBits(c, s')
  {
    WriterSizes(c, s, fail, junk);
    WriterSettles(c, s, fail, junk);
    if !s.wr.pc.NSetW? { assert WriterStep(c, s, fail, junk).bits.written == s.bits.written; }
  }

  lemma WriterKeeps(c: Config, s: State, fail: bool, junk: Block)
    requires Inv(c, s) && Stages.Inv(c, s) && SnapshotsTruthful(c, s.hist.loc, s.ct.pc) && WriterCan(c, s)
    ensures Inv(c, WriterStep(c, s, fail, junk))
  {
    var s' := WriterStep(c, s, fail, junk);
    WriterSizes(c, s, fail, junk);
    WriterSettles(c, s, fail, junk);
    WriterKeepsMarked(c, s, fail, junk);
    WriterKeepsExact(c, s, fail, junk);
    WriterKeepsWritten(c, s, fail, junk);
    SnapshotSettles(c, s, s');
  }

  // Copying byte k of the written bitmap after the processed one was copied.
  lemma CopyByte(c: Config, loc: seq<Loc>, k: nat, p: set<nat>, w: set<nat>, written: set<nat>)
    requires |loc| == c.n && Marked(c, loc, p, written) && MarkedUpTo(c, loc, k, p, w)
    ensures MarkedUpTo(c, loc, k + 1, p, w + ByteOf(written, k))
    ensures k >= Capacity(c.n) ==> Marked(c, loc, p, w)
  {}

  lemma CopyKeepsCut(c: Config, s: State, choice: Choice, ok: bool)
    requires ControlCan(c, s, choice) && s.ct.pc.CCopyW? && SnapshotCut(c, s)
    requires var pc := s.ct.pc;
      && MarkedUpTo(c, s.hist.loc, pc.k + 1, pc.p, pc.w + ByteOf(s.bits.written, pc.k))
      && (pc.k >= Capacity(c.n) ==> Marked(c, s.hist.loc, pc.p, pc.w))
    ensures |ControlStep(c, s, choice, ok).hist.loc| == c.n && SnapshotCut(c, ControlStep(c, s, choice, ok))
  {
    if s.ct.pc.why.Second? { assert Consistent(c, s, Whole(s.ct.pc)[0]); }
  }

  lemma OthersKeepCut(c: Config, s: State, choice: Choice, ok: bool)
    requires ControlCan(c, s, choice) && !s.ct.pc.CCopyW? && SnapshotCut(c, s) && BitmapsMarked(c, s)
    ensures |ControlStep(c, s, choice, ok).hist.loc| == c.n && SnapshotCut(c, ControlStep(c, s, choice, ok))
  {
    if |Whole(s.ct.pc)| > 0 { assert Consistent(c, s, Whole(s.ct.pc)[0]); }
    if |Whole(s.ct.pc)| > 1 { assert Consistent(c, s, Whole(s.ct.pc)[1]); }
  }

  lemma ControlKeepsCut(c: Config, s: State, choice: Choice, ok: bool)
    requires Inv(c, s) && ControlCan(c, s, choice)
    ensures |ControlStep(c, s, choice, ok).hist.loc| == c.n && SnapshotCut(c, ControlStep(c, s, choice, ok))
  {
    var pc := s.ct.pc;
    if |Whole(pc)| > 0 { assert Consistent(c, s, Whole(pc)[0]); }
    if pc.CCopyW? {
      CopyByte(c, s.hist.loc, pc.k, pc.p, pc.w, s.bits.written);
      CopyKeepsCut(c, s, choice, ok);
    } else {
      OthersKeepCut(c, s, choice, ok);
    }
  }

  lemma ControlKeepsFile(c: Config, s: State, choice: Choice, ok: bool)
    requires Inv(c, s) && SnapshotsTruthful(c, s.hist.loc, s.ct.pc) && ControlCan(c, s, choice)
    ensures FileCut(c, ControlStep(c, s, choice, ok))
  {
    if |Whole(s.ct.pc)| > 0 {
      assert TruthfulSnap(c, s.hist.loc, Whole(s.ct.pc)[0]) && Consistent(c, s, Whole(s.ct.pc)[0]);
    }
  }

  lemma ControlKeeps(c: Config, s: State, choice: Choice, ok: bool)
    requires Inv(c, s) && SnapshotsTruthful(c, s.hist.loc, s.ct.pc) && ControlCan(c, s, choice)
    ensures Inv(c, ControlStep(c, s, choice, ok))
  {
    ControlFrames(c, s, choice, ok);
    ControlKeepsCut(c, s, choice, ok);
    ControlKeepsFile(c, s, choice, ok);
  }
}
