/** What the checkpoint files are worth at every moment. */
module Checkpoint {
  import opened Common
  import opened Pipeline
  import opened Frames
  import opened Stages
  import opened Durability
  import opened ControlThread
  import Handshake
  import Ownership

  // The saved table holds the digest of every block of p.
  ghost predicate Covered(c: Config, f: Files, p: set<nat>)
    requires ValidConfig(c)
  {
    c.hasher ==>
      && f.tableFile.Some? && |f.tableFile.value| == c.n
      && forall i :: i in p && 0 <= i < c.n ==> f.tableFile.value[i] == c.digest(c.vol[i])
  }

  // So does the table in memory.
  ghost predicate InTable(c: Config, table: seq<Digest>, p: set<nat>)
    requires ValidConfig(c) && |table| == c.n
  {
    c.hasher ==> forall i :: i in p && 0 <= i < c.n ==> table[i] == c.digest(c.vol[i])
  }

  // The blocks of p are as they should be: written, or dropped as unchanged.
  ghost predicate Right(c: Config, blocks: seq<Block>, p: set<nat>)
    requires ValidConfig(c) && |blocks| == c.n
  {
    forall i :: i in p && 0 <= i < c.n ==> blocks[i] == Target(c, i)
  }

  ghost predicate TableSaved(c: Config, s: State) { c.hasher ==> s.files.tableFile == Some(s.table) }

  // The blocks and the digests that a checkpoint vouches for, now and for as long as this run goes on.
  ghost predicate SoundBlocks(c: Config, s: State, p: set<nat>)
    requires ValidConfig(c) && Sized(c, s)
  {
    Right(c, s.files.disk, p) && Right(c, s.copy, p)
  }

  ghost predicate SoundDigests(c: Config, s: State, p: set<nat>)
    requires ValidConfig(c) && Sized(c, s)
  {
    Covered(c, s.files, p) && (!s.hist.hashBad ==> InTable(c, s.table, p))
  }

  ghost predicate FilesSound(c: Config, s: State)
    requires ValidConfig(c) && Sized(c, s)
  {
    s.files.ckptFile.Some? ==>
      && (!s.files.fileBad ==> SoundBlocks(c, s, s.files.ckptFile.value.processed))
      && (!s.files.tableBad ==> SoundDigests(c, s, s.files.ckptFile.value.processed))
  }

  // No failed Write and no failed fsync stands in the way of a save.
  predicate Clean(s: State) { !s.hist.memBad && !s.files.syncBad }

  // The snapshot may be saved: the table was saved after it, and the data after that.
  ghost predicate Secured(c: Config, s: State, snap: Snap)
    requires ValidConfig(c) && Sized(c, s)
  {
    && (Clean(s) ==> Right(c, s.files.disk, snap.processed))
    && (!s.hist.hashBad ==> Covered(c, s.files, snap.processed))
  }

  ghost predicate Saved(c: Config, s: State, tableSaved: bool)
    requires ValidConfig(c) && Sized(c, s)
  {
    (!s.files.syncBad ==> s.files.disk == s.copy) && (tableSaved ==> TableSaved(c, s))
  }

  ghost predicate PurposeInv(c: Config, s: State, why: Purpose)
    requires ValidConfig(c) && Sized(c, s)
  {
    match why
    case First => true
    case Second(older) => Secured(c, s, older)
    case Final(tableSaved) => Saved(c, s, tableSaved)
  }

  ghost predicate SnapshotInv(c: Config, s: State)
    requires ValidConfig(c) && Sized(c, s)
  {
    match s.ct.pc
    case CCopyP(_, _, why) => PurposeInv(c, s, why)
    case CCopyW(_, _, _, why) => PurposeInv(c, s, why)
    case CFsync(snap) => !s.hist.hashBad ==> Covered(c, s.files, snap.processed)
    case CSaveNew(_, older) => Secured(c, s, older)
    case CSaveOld(older) => Secured(c, s, older)
    case FFsync(tableSaved) => tableSaved ==> TableSaved(c, s)
    case FSave(_, tableSaved) => Saved(c, s, tableSaved)
    case CEnd(completed, tableSaved) => completed ==> Saved(c, s, tableSaved)
    case _ => true
  }

  ghost predicate Inv(c: Config, s: State)
    requires ValidConfig(c)
  {
    Sized(c, s) && Memory(c, s) && FilesSound(c, s) && SnapshotInv(c, s)
  }

  // ---------------------------------------------------------------- pipeline steps

  // What a step leaves of the blocks and digests the checkpoint file vouches for.
  ghost predicate Vouched(c: Config, s: State, s': State)
    requires ValidConfig(c) && Sized(c, s) && Sized(c, s')
  {
    s'.files.ckptFile.Some? ==>
      var p := s'.files.ckptFile.value.processed;
      && (!s'.files.fileBad && Right(c, s.copy, p) ==> Right(c, s'.copy, p))
      && (!s'.hist.hashBad && InTable(c, s.table, p) ==> InTable(c, s'.table, p))
  }

  lemma PipelineKeepsFiles(c: Config, s: State, s': State)
    requires ValidConfig(c) && Sized(c, s) && Sized(c, s') && FilesSound(c, s) && SnapshotInv(c, s)
    requires s'.files == s.files.(fileBad := s'.files.fileBad) && (s.files.fileBad ==> s'.files.fileBad)
    requires s'.ct == s.ct && Vouched(c, s, s')
    requires (s.hist.memBad ==> s'.hist.memBad) && (s.hist.hashBad ==> s'.hist.hashBad)
    requires Ending(s.ct.pc) ==> s'.table == s.table && s'.copy == s.copy
    ensures FilesSound(c, s') && SnapshotInv(c, s')
  {}

  lemma ReaderKeeps(c: Config, s: State, fail: bool)
    requires ValidConfig(c) && Stages.Inv(c, s) && Handshake.Inv(c, s) && Inv(c, s) && ReaderCan(c, s, fail)
    ensures Inv(c, ReaderStep(c, s, fail))
  {
    ReaderSizes(c, s, fail);
    ReaderKeepsMemory(c, s, fail);
    ReaderGrows(c, s, fail);
    PipelineKeepsFiles(c, s, ReaderStep(c, s, fail));
  }

  lemma WorkerVouches(c: Config, s: State, j: nat)
    requires ValidConfig(c) && Stages.Inv(c, s) && WorkerCan(c, s, j)
    ensures Sized(c, WorkerStep(c, s, j)) && Vouched(c, s, WorkerStep(c, s, j))
  {
    WorkerSizes(c, s, j);
    WorkerGrows(c, s, j);
    if !s.hs.ws[j].WHash? { assert WorkerStep(c, s, j).table == s.table; }
  }

  lemma WorkerKeeps(c: Config, s: State, j: nat)
    requires ValidConfig(c) && Comparable(c) && Stages.Inv(c, s) && Handshake.Inv(c, s) && Ownership.Inv(c, s)
    requires ControlThread.FlagsInv(s) && Inv(c, s) && WorkerCan(c, s, j) && c.hasher
    ensures Inv(c, WorkerStep(c, s, j))
  {
    WorkerSizes(c, s, j);
    WorkerKeepsMemory(c, s, j);
    WorkerGrows(c, s, j);
    WorkerVouches(c, s, j);
    if Ending(s.ct.pc) { EndedIsStill(c, s); }
    PipelineKeepsFiles(c, s, WorkerStep(c, s, j));
  }

  // A Write puts into a block what belongs there; if it fails, the file no longer vouches for it.
  lemma WriterVouches(c: Config, s: State, fail: bool, junk: Block)
    requires ValidConfig(c) && WriterCan(c, s) && Memory(c, s) && Ownership.Inv(c, s)
    requires s.wr.pc.NGot? ==> s.hist.loc[s.wr.pc.b.index].AtWriter?
    ensures Sized(c, WriterStep(c, s, fail, junk)) && Vouched(c, s, WriterStep(c, s, fail, junk))
  {
    WriterSizes(c, s, fail, junk);
    var s' := WriterStep(c, s, fail, junk);
    assert s'.table == s.table && (s.hist.hashBad ==> s'.hist.hashBad);
    if s.wr.pc.NGot? {
      if !s.wr.failed { assert Ownership.Owned(c, s.pool, s.wr.pc.b); }
    } else {
      assert s'.copy == s.copy;
    }
  }

  lemma WriterKeeps(c: Config, s: State, fail: bool, junk: Block)
    requires ValidConfig(c) && Stages.Inv(c, s) && Handshake.Inv(c, s) && Ownership.Inv(c, s)
    requires ControlThread.FlagsInv(s) && Inv(c, s) && WriterCan(c, s)
    ensures Inv(c, WriterStep(c, s, fail, junk))
  {
    WriterSizes(c, s, fail, junk);
    WriterKeepsMemory(c, s, fail, junk);
    WriterGrows(c, s, fail, junk);
    WriterVouches(c, s, fail, junk);
    if Ending(s.ct.pc) { EndedIsStill(c, s); }
    PipelineKeepsFiles(c, s, WriterStep(c, s, fail, junk));
  }

  // ---------------------------------------------------------------- control steps

  ghost predicate RightInMemory(c: Config, s: State, p: set<nat>)
    requires ValidConfig(c) && Sized(c, s)
  {
    (!s.hist.memBad ==> Right(c, s.copy, p)) && (!s.hist.hashBad ==> InTable(c, s.table, p))
  }

  // A snapshot taken without a failed Write names blocks that are right in memory.
  lemma SnapshotIsRight(c: Config, s: State, p: set<nat>)
    requires ValidConfig(c) && Sized(c, s) && Memory(c, s) && Truthful(c, s.hist.loc, p)
    ensures RightInMemory(c, s, p)
  {}

  lemma ControlKeepsMemory(c: Config, s: State, choice: Choice, ok: bool)
    requires ValidConfig(c) && Inv(c, s) && ControlCan(c, s, choice)
    ensures Sized(c, ControlStep(c, s, choice, ok)) && Memory(c, ControlStep(c, s, choice, ok))
  {
    ControlFrames(c, s, choice, ok);
    DiskIsFlushed(c, s, ok);
  }

  lemma HeldIsRight(c: Config, s: State, k: nat)
    requires ValidConfig(c) && Sized(c, s) && Memory(c, s) && SnapshotsTruthful(c, s.hist.loc, s.ct.pc)
    requires k < |Whole(s.ct.pc)|
    ensures RightInMemory(c, s, Whole(s.ct.pc)[k].processed)
  {
    assert TruthfulSnap(c, s.hist.loc, Whole(s.ct.pc)[k]);
    SnapshotIsRight(c, s, Whole(s.ct.pc)[k].processed);
  }

  lemma NextFilesRight(c: Config, s: State, ok: bool)
    requires ValidConfig(c) && Sized(c, s) && FilesSound(c, s) && SnapshotInv(c, s)
    requires |Whole(s.ct.pc)| > 0 ==> RightInMemory(c, s, Whole(s.ct.pc)[0].processed)
    requires |Whole(s.ct.pc)| > 1 ==> RightInMemory(c, s, Whole(s.ct.pc)[1].processed)
    ensures var f := NextFiles(c, s, ok);
      |f.disk| == c.n
      && (f.ckptFile.Some? && !f.fileBad ==>
            Right(c, f.disk, f.ckptFile.value.processed) && Right(c, s.copy, f.ckptFile.value.processed))
  {}

  lemma NextFilesCovered(c: Config, s: State, ok: bool)
    requires ValidConfig(c) && Sized(c, s) && FilesSound(c, s) && SnapshotInv(c, s)
    requires |Whole(s.ct.pc)| > 0 ==> RightInMemory(c, s, Whole(s.ct.pc)[0].processed)
    requires |Whole(s.ct.pc)| > 1 ==> RightInMemory(c, s, Whole(s.ct.pc)[1].processed)
    ensures var f := NextFiles(c, s, ok);
      f.ckptFile.Some? && !f.tableBad ==>
        && Covered(c, f, f.ckptFile.value.processed)
        && (!s.hist.hashBad ==> InTable(c, s.table, f.ckptFile.value.processed))
  {}

  lemma ControlKeepsFiles(c: Config, s: State, choice: Choice, ok: bool)
    requires ValidConfig(c) && Inv(c, s) && ControlThread.Inv(c, s) && ControlCan(c, s, choice)
    ensures Sized(c, ControlStep(c, s, choice, ok)) && FilesSound(c, ControlStep(c, s, choice, ok))
  {
    ControlFrames(c, s, choice, ok);
    var s' := ControlStep(c, s, choice, ok);
    assert s'.copy == s.copy && s'.table == s.table && s'.hist == s.hist && s'.files == NextFiles(c, s, ok);
    if |Whole(s.ct.pc)| > 0 { HeldIsRight(c, s, 0); }
    if |Whole(s.ct.pc)| > 1 { HeldIsRight(c, s, 1); }
    NextFilesRight(c, s, ok);
    NextFilesCovered(c, s, ok);
  }

  lemma CopyKeepsSnapshot(c: Config, s: State, choice: Choice, ok: bool)
    requires ValidConfig(c) && ControlCan(c, s, choice) && (s.ct.pc.CCopyP? || s.ct.pc.CCopyW?) && SnapshotInv(c, s)
    ensures Sized(c, ControlStep(c, s, choice, ok)) && SnapshotInv(c, ControlStep(c, s, choice, ok))
  {
    ControlFrames(c, s, choice, ok);
  }

  lemma SaveKeepsSnapshot(c: Config, s: State, choice: Choice, ok: bool)
    requires ValidConfig(c) && ControlCan(c, s, choice) && !s.ct.pc.CCopyP? && !s.ct.pc.CCopyW? && SnapshotInv(c, s)
    requires s.ct.pc.CTable? || s.ct.pc.CFsync? ==> RightInMemory(c, s, s.ct.pc.snap.processed)
    ensures Sized(c, ControlStep(c, s, choice, ok)) && SnapshotInv(c, ControlStep(c, s, choice, ok))
  {
    ControlFrames(c, s, choice, ok);
  }

  lemma ControlKeepsSnapshot(c: Config, s: State, choice: Choice, ok: bool)
    requires ValidConfig(c) && Inv(c, s) && ControlThread.Inv(c, s) && ControlCan(c, s, choice)
    ensures Sized(c, ControlStep(c, s, choice, ok)) && SnapshotInv(c, ControlStep(c, s, choice, ok))
  {
    ControlFrames(c, s, choice, ok);
    var s' := ControlStep(c, s, choice, ok);
    assert s'.copy == s.copy && s'.table == s.table && s'.hist == s.hist && s'.files == NextFiles(c, s, ok);
    if s.ct.pc.CCopyP? || s.ct.pc.CCopyW? {
      assert s'.files == s.files;
      CopyKeepsSnapshot(c, s, choice, ok);
    } else {
      if s.ct.pc.CTable? || s.ct.pc.CFsync? {
        HeldIsRight(c, s, 0);
        assert Whole(s.ct.pc)[0] == s.ct.pc.snap;
      }
      SaveKeepsSnapshot(c, s, choice, ok);
    }
  }

  lemma ControlKeeps(c: Config, s: State, choice: Choice, ok: bool)
    requires ValidConfig(c) && Inv(c, s) && ControlThread.Inv(c, s) && ControlCan(c, s, choice)
    ensures Inv(c, ControlStep(c, s, choice, ok))
  {
    ControlKeepsMemory(c, s, choice, ok);
    ControlKeepsFiles(c, s, choice, ok);
    ControlKeepsSnapshot(c, s, choice, ok);
  }
}
