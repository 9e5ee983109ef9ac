/** What a session leaves behind, whatever crashes and restarts it went through. */
module Convergence {
  import opened Common
  import opened Pipeline
  import opened Frames
  import opened Stages
  import opened Durability
  import opened ControlThread
  import opened Checkpoint
  import opened Session
  import Handshake
  import Ownership
  import Runs

  // The threads have all ended, and all report success.
  predicate Succeeded(s: State) {
    s.rd.status.Succeed? && s.hs.status.Succeed? && s.wr.status.Succeed? && s.wr.pc.NDone?
  }

  lemma QueuesAreOver(c: Config, s: State)
    requires ValidConfig(c) && Handshake.Inv(c, s) && Succeeded(s)
    ensures s.hq.items == [] && s.wq.items == [] && s.rd.cur >= c.n
    ensures forall j :: 0 <= j < |s.hs.ws| ==> !HasItem(s.hs.ws[j])
  {
    assert s.wq.finished && s.wq.items == [];
    assert c.hasher ==> Handshake.Quiet(s);
  }

  lemma SuccessMeansDone(c: Config, s: State)
    requires ValidConfig(c) && Session.Core(c, s) && Succeeded(s)
    ensures forall i :: 0 <= i < c.n ==> Done(s.hist.loc[i])
    ensures s.hq.items == [] && s.wq.items == []
    ensures forall j :: 0 <= j < |s.hs.ws| ==> !HasItem(s.hs.ws[j])
  {
    QueuesAreOver(c, s);
    forall i | 0 <= i < c.n ensures Done(s.hist.loc[i]) {
      assert !s.hist.loc[i].AtHashQueue? && !s.hist.loc[i].AtWriteQueue?;
    }
  }

  // A Write has failed in this run.
  predicate HasFailed(wr: WriterState) { wr.failed || wr.pc.NFail? }

  // ---------------------------------------------------------------- one run, any history

  // Every block, and every digest, is as one undisturbed run would leave it.
  ghost predicate CopyRight(c: Config, s: State)
    requires ValidConfig(c)
  {
    |s.copy| == c.n && forall i :: 0 <= i < c.n ==> s.copy[i] == Target(c, i)
  }

  ghost predicate TableRight(c: Config, s: State)
    requires ValidConfig(c)
  {
    |s.table| == c.n && forall i :: 0 <= i < c.n ==> s.table[i] == c.digest(c.vol[i])
  }

  lemma SuccessfulState(c: Config, s: State)
    requires ValidConfig(c) && Session.Inv(c, s) && Succeeded(s)
    ensures |s.copy| == |s.table| == |s.files.disk| == c.n
    ensures !s.hist.memBad ==> CopyRight(c, s)
    ensures c.hasher && !s.hist.hashBad ==> TableRight(c, s)
    ensures s.ct.pc.CEnd? && s.ct.pc.completed ==>
              && (!s.files.syncBad ==> s.files.disk == s.copy)
              && (s.ct.pc.tableSaved && c.hasher ==> s.files.tableFile == Some(s.table))
  {
    SuccessMeansDone(c, s);
    if !s.hist.memBad { assert DoneAt(c, s.hist.loc, s.copy); }
    if c.hasher && !s.hist.hashBad { assert HashedAt(c, s.hist.loc, s.table); }
  }

  // As long as no lying checkpoint was loaded and no Write failed in the last run, success means
  // that every block is as it should be, whatever happened in the runs before; and once the session
  // has ended it is so on disk, unless an fsync has failed. The digests are right if no Write failed
  // and no lying table was loaded.
  lemma SuccessIsRight(c: Config, steps: seq<Action>, s: State)
    requires ValidConfig(c) && Comparable(c) && Reaches(c, Init(c), steps, s) && Succeeded(s)
    ensures |s.copy| == |s.table| == |s.files.disk| == c.n
    ensures !s.hist.memBad ==> CopyRight(c, s)
    ensures c.hasher && !s.hist.hashBad ==> TableRight(c, s)
    ensures s.ct.pc.CEnd? && s.ct.pc.completed && !s.files.syncBad ==> s.files.disk == s.copy
  {
    ReachableInv(c, steps, s);
    SuccessfulState(c, s);
  }

  // A checkpoint file saved by a refresh that ran to its end, with no fsync failed before: every
  // bit names a block whose digest is in the saved table and whose content survives a crash of the
  // process and of the machine.
  lemma CheckpointIsSound(c: Config, steps: seq<Action>, s: State, torn: seq<Block>, machine: bool)
    requires ValidConfig(c) && Comparable(c) && Reaches(c, Init(c), steps, s)
    requires s.files.ckptFile.Some? && |torn| == c.n
    ensures Sized(c, s)
    ensures forall i :: i in s.files.ckptFile.value.processed ==>
              && i < c.n
              && (!s.files.fileBad ==> Found(s, torn, machine)[i] == Target(c, i))
              && (c.hasher && !s.files.tableBad ==>
                    && s.files.tableFile.Some? && i < |s.files.tableFile.value|
                    && s.files.tableFile.value[i] == c.digest(c.vol[i]))
  {
    ReachableInv(c, steps, s);
  }

  // ---------------------------------------------------------------- what may spoil a checkpoint

  // What may go wrong unnoticed: a Write that fails, an fsync that fails, a crash between the two
  // saves of one refresh or a failed second save, a lost table at the end, a table that cannot be
  // read back.
  datatype Failure = WriteFails | SyncFails | SecondSaveLost | LastTableLost | TableUnreadable

  // No failure but those of `fs` is met in the step. A bitmap that cannot be read back, a failed
  // first save or a crash anywhere else is none.
  predicate Tolerates(c: Config, s: State, a: Action, fs: set<Failure>) {
    match a
    case Writer(fail, _) => s.wr.pc.NGot? && fail ==> WriteFails in fs
    case Control(_, ok) =>
      && ((s.ct.pc.CFsync? || s.ct.pc.FFsync?) && !ok ==> SyncFails in fs)
      && (s.ct.pc.CSaveOld? && !ok ==> SecondSaveLost in fs)
      && (s.ct.pc.FTable? && !ok ==> LastTableLost in fs)
    case Crash(_, _, readTable, _) =>
      (s.ct.pc.CSaveOld? ==> SecondSaveLost in fs) && (c.hasher && !readTable ==> TableUnreadable in fs)
    case _ => true
  }

  // A run that meets no other failures.
  ghost predicate RunsWith(c: Config, fs: set<Failure>, s: State, steps: seq<Action>, s': State)
    decreases |steps|
  {
    var last := |steps| - 1;
    if steps == [] then s == s'
    else if last == 0 then Enabled(c, s, steps[0]) && Tolerates(c, s, steps[0], fs) && Next(c, s, steps[0]) == s'
    else exists mid :: RunsWith(c, fs, s, steps[..last], mid) && RunsWith(c, fs, mid, steps[last..], s')
  }

  predicate Harmless(c: Config, s: State, a: Action) { Tolerates(c, s, a, {}) }

  ghost predicate CleanRun(c: Config, s: State, steps: seq<Action>, s': State) { RunsWith(c, {}, s, steps, s') }

  predicate TableNotLost(pc: ControlPc) {
    && (pc.FFsync? || pc.FSave? ==> pc.tableSaved)
    && (pc.CEnd? && pc.completed ==> pc.tableSaved)
    && ((pc.CCopyP? || pc.CCopyW?) && pc.why.Final? ==> pc.why.tableSaved)
  }

  // The failures that can spoil the blocks, and those that can part the bits from their digests.
  const COPY_SPOILERS := {WriteFails, SyncFails, SecondSaveLost}

  const TABLE_LOSSES := {SecondSaveLost, LastTableLost, TableUnreadable}

  // No bit names a wrong block, except between the two saves of a refresh.
  predicate CopyTrusted(s: State) {
    !s.hist.memBad && !s.files.syncBad && (s.files.fileBad ==> s.ct.pc.CSaveOld?)
  }

  // No bit names a wrong digest.
  predicate TableTrusted(c: Config, s: State) {
    && !s.hist.hashBad
    && (s.files.tableBad ==> s.ct.pc.CSaveOld?)
    && (s.files.ckptFile.Some? ==> c.checkpoint)
    && TableNotLost(s.ct.pc)
  }

  // Only a session with checkpoints enabled ever refreshes one.
  predicate RefreshOnlyIfEnabled(c: Config, s: State) { Refreshing(s.ct.pc) ==> c.checkpoint }

  lemma EnabledStays(c: Config, s: State, a: Action)
    requires RefreshOnlyIfEnabled(c, s) && Enabled(c, s, a)
    ensures RefreshOnlyIfEnabled(c, Next(c, s, a))
  {
    match a
    case Reader(fail) => assert ReaderStep(c, s, fail).ct == s.ct;
    case Worker(j) => assert WorkerStep(c, s, j).ct == s.ct;
    case Writer(fail, junk) => assert WriterStep(c, s, fail, junk).ct == s.ct;
    case Control(choice, ok) => assert ControlStep(c, s, choice, ok).ct.pc == NextPc(c, s, choice, ok);
    case Crash(_, _, _, _) =>
  }

  // A thread that meets no failed Write changes no file and no taint.
  predicate NoTrace(s: State, s': State) { s'.ct == s.ct && s'.files == s.files && SameTaint(s.hist, s'.hist) }

  lemma ReaderLeavesNoTrace(c: Config, s: State, fail: bool)
    requires ReaderCan(c, s, fail)
    ensures NoTrace(s, ReaderStep(c, s, fail))
  {}

  lemma WorkerLeavesNoTrace(c: Config, s: State, j: nat)
    requires WorkerCan(c, s, j) && HashesItsOwn(c, s, j)
    ensures NoTrace(s, WorkerStep(c, s, j))
  {}

  lemma WriterLeavesNoTrace(c: Config, s: State, fail: bool, junk: Block)
    requires WriterCan(c, s) && !(s.wr.pc.NGot? && fail)
    ensures NoTrace(s, WriterStep(c, s, fail, junk))
  {}

  // No digest of other bytes is computed in the step.
  predicate HashesRightly(c: Config, s: State, a: Action)
    requires Enabled(c, s, a)
  {
    a.Worker? ==> HashesItsOwn(c, s, a.j)
  }

  // While no Write has failed every buffer holds the bytes of its block.
  lemma SoundBuffers(c: Config, s: State, a: Action)
    requires ValidConfig(c) && Ownership.Inv(c, s) && !s.wr.failed && Enabled(c, s, a)
    ensures HashesRightly(c, s, a)
  {
    if a.Worker? && s.hs.ws[a.j].WHash? { assert Ownership.Owned(c, s.pool, s.hs.ws[a.j].b); }
  }

  lemma ThreadLeavesNoTrace(c: Config, s: State, a: Action, fs: set<Failure>)
    requires Enabled(c, s, a) && Tolerates(c, s, a, fs) && WriteFails !in fs && !a.Control? && !a.Crash?
    requires HashesRightly(c, s, a)
    ensures NoTrace(s, Next(c, s, a))
  {
    match a
    case Reader(fail) => ReaderLeavesNoTrace(c, s, fail);
    case Worker(j) => WorkerLeavesNoTrace(c, s, j);
    case Writer(fail, junk) => WriterLeavesNoTrace(c, s, fail, junk);
  }

  lemma CopyTrustedControl(c: Config, s: State, choice: Choice, ok: bool, fs: set<Failure>)
    requires CopyTrusted(s) && ControlCan(c, s, choice) && Tolerates(c, s, Control(choice, ok), fs)
    requires fs !! COPY_SPOILERS
    ensures CopyTrusted(ControlStep(c, s, choice, ok))
  {}

  lemma CopyTrustedStep(c: Config, s: State, a: Action, fs: set<Failure>)
    requires CopyTrusted(s) && Enabled(c, s, a) && Tolerates(c, s, a, fs) && fs !! COPY_SPOILERS
    requires HashesRightly(c, s, a)
    ensures CopyTrusted(Next(c, s, a))
  {
    match a
    case Control(choice, ok) => CopyTrustedControl(c, s, choice, ok, fs);
    case Crash(_, _, _, _) =>
    case _ => ThreadLeavesNoTrace(c, s, a, fs);
  }

  lemma TableTrustedControl(c: Config, s: State, choice: Choice, ok: bool, fs: set<Failure>)
    requires TableTrusted(c, s) && RefreshOnlyIfEnabled(c, s)
    requires ControlCan(c, s, choice) && Tolerates(c, s, Control(choice, ok), fs) && fs !! TABLE_LOSSES
    ensures TableTrusted(c, ControlStep(c, s, choice, ok))
  {}

  lemma WriterKeepsTable(c: Config, s: State, fail: bool, junk: Block)
    requires WriterCan(c, s)
    ensures var s' := WriterStep(c, s, fail, junk);
      s'.ct == s.ct && s'.files.(fileBad := s.files.fileBad) == s.files && s'.hist.hashBad == s.hist.hashBad
  {}

  lemma TableTrustedStep(c: Config, s: State, a: Action, fs: set<Failure>)
    requires ValidConfig(c) && Sized(c, s) && Checkpoint.FilesSound(c, s)
    requires TableTrusted(c, s) && RefreshOnlyIfEnabled(c, s)
    requires Enabled(c, s, a) && Tolerates(c, s, a, fs) && fs !! TABLE_LOSSES && HashesRightly(c, s, a)
    ensures TableTrusted(c, Next(c, s, a))
  {
    match a
    case Reader(fail) => ReaderLeavesNoTrace(c, s, fail);
    case Worker(j) => WorkerLeavesNoTrace(c, s, j);
    case Writer(fail, junk) => WriterKeepsTable(c, s, fail, junk);
    case Control(choice, ok) => TableTrustedControl(c, s, choice, ok, fs);
    case Crash(_, _, _, _) =>
  }

  lemma WriterFailsOnlyIfAllowed(c: Config, s: State, fail: bool, junk: Block)
    requires WriterCan(c, s) && !(s.wr.pc.NGot? && fail) && !HasFailed(s.wr)
    ensures !HasFailed(WriterStep(c, s, fail, junk).wr)
  {}

  lemma FailsOnlyIfAllowed(c: Config, fs: set<Failure>, s: State, a: Action)
    requires WriteFails !in fs && !HasFailed(s.wr) && Enabled(c, s, a) && Tolerates(c, s, a, fs)
    ensures !HasFailed(Next(c, s, a).wr)
  {
    match a
    case Reader(fail) => assert ReaderStep(c, s, fail).wr == s.wr;
    case Worker(j) => assert WorkerStep(c, s, j).wr == s.wr;
    case Writer(fail, junk) => WriterFailsOnlyIfAllowed(c, s, fail, junk);
    case Control(choice, ok) => ControlFrames(c, s, choice, ok);
    case Crash(_, _, _, _) =>
  }

  // What a run keeps that meets only failures of `fs`.
  ghost predicate TrustedInv(c: Config, fs: set<Failure>, s: State)
    requires ValidConfig(c)
  {
    && Session.Inv(c, s) && RefreshOnlyIfEnabled(c, s)
    && (WriteFails !in fs ==> !HasFailed(s.wr))
    && (fs !! COPY_SPOILERS ==> CopyTrusted(s))
    && (WriteFails !in fs && fs !! TABLE_LOSSES ==> TableTrusted(c, s))
  }

  lemma TrustedStep(c: Config, fs: set<Failure>, s: State, a: Action)
    requires ValidConfig(c) && Comparable(c) && TrustedInv(c, fs, s) && Enabled(c, s, a) && Tolerates(c, s, a, fs)
    ensures TrustedInv(c, fs, Next(c, s, a))
  {
    StepKeeps(c, s, a);
    EnabledStays(c, s, a);
    if WriteFails !in fs {
      SoundBuffers(c, s, a);
      FailsOnlyIfAllowed(c, fs, s, a);
      if fs !! COPY_SPOILERS { CopyTrustedStep(c, s, a, fs); }
      if fs !! TABLE_LOSSES { TableTrustedStep(c, s, a, fs); }
    }
  }

  // What every step keeps that meets no other failures, such a run keeps.
  lemma {:induction false} RunKeeps(c: Config, fs: set<Failure>, keep: State -> bool, s: State, steps: seq<Action>,
                                    s': State)
    requires keep(s) && RunsWith(c, fs, s, steps, s')
    requires forall t, a :: keep(t) && Enabled(c, t, a) && Tolerates(c, t, a, fs) ==> keep(Next(c, t, a))
    ensures keep(s')
    decreases |steps|
  {
    var last := |steps| - 1;
    if last > 0 {
      var mid :| RunsWith(c, fs, s, steps[..last], mid) && RunsWith(c, fs, mid, steps[last..], s');
      RunKeeps(c, fs, keep, s, steps[..last], mid);
      RunKeeps(c, fs, keep, mid, steps[last..], s');
    }
  }

  lemma StartIsTrusted(c: Config, fs: set<Failure>)
    requires ValidConfig(c)
    ensures TrustedInv(c, fs, Init(c))
  {
    InitInv(c);
  }

  lemma RunIsTrusted(c: Config, fs: set<Failure>, steps: seq<Action>, s: State)
    requires ValidConfig(c) && Comparable(c) && RunsWith(c, fs, Init(c), steps, s)
    ensures TrustedInv(c, fs, s)
  {
    var keep := (t: State) => ValidConfig(c) && TrustedInv(c, fs, t);
    StartIsTrusted(c, fs);
    forall t: State, a: Action | keep(t) && Enabled(c, t, a) && Tolerates(c, t, a, fs) ensures keep(Next(c, t, a)) {
      TrustedStep(c, fs, t, a);
    }
    RunKeeps(c, fs, keep, Init(c), steps, s);
  }

  // In clean runs every checkpoint is sound, except between the two saves of a refresh.
  lemma CleanCheckpointIsSound(c: Config, steps: seq<Action>, s: State)
    requires ValidConfig(c) && Comparable(c) && CleanRun(c, Init(c), steps, s)
    requires s.files.ckptFile.Some? && !s.ct.pc.CSaveOld?
    ensures Sized(c, s)
    ensures var p := s.files.ckptFile.value.processed;
      && Checkpoint.Right(c, s.files.disk, p) && Checkpoint.Right(c, s.copy, p)
      && Checkpoint.Covered(c, s.files, p) && Checkpoint.InTable(c, s.table, p)
  {
    RunIsTrusted(c, {}, steps, s);
  }

  // Crash-restart convergence: over any number of runs, each cut at any step outside the window
  // between the two saves of a refresh, with no failed Write or fsync, a session whose threads end in success
  // leaves the target and the table as one undisturbed run would.
  lemma CrashRestartConvergence(c: Config, steps: seq<Action>, s: State)
    requires ValidConfig(c) && Comparable(c) && CleanRun(c, Init(c), steps, s) && Succeeded(s)
    ensures |s.files.disk| == c.n && CopyRight(c, s) && (c.hasher ==> TableRight(c, s))
    ensures s.ct.pc.CEnd? && s.ct.pc.completed ==>
              s.files.disk == s.copy && (c.hasher ==> s.files.tableFile == Some(s.table))
  {
    RunIsTrusted(c, {}, steps, s);
    SuccessfulState(c, s);
  }

  // ---------------------------------------------------------------- the target is the volume

  ghost predicate CollisionFree(d: Block -> Digest) {
    && (forall a, b :: d(a) == d(b) ==> a == b)
    && (forall a :: d(a) != ZERO_DIGEST)
  }

  // The previous table describes what the target holds, as far as it was loaded.
  ghost predicate PreviousTruthful(c: Config)
    requires ValidConfig(c)
  {
    c.mode.Diff? ==> forall i :: 0 <= i < c.n ==> c.prev[i] == ZERO_DIGEST || c.prev[i] == c.digest(c.base[i])
  }

  ghost predicate SkipsRightly(c: Config)
    requires ValidConfig(c)
  {
    c.skipEmpty ==> forall i :: 0 <= i < c.n && AllZero(c.vol[i]) ==> AllZero(c.base[i])
  }

  lemma TargetIsVolumeAt(c: Config, i: nat)
    requires ValidConfig(c) && PreviousTruthful(c) && (c.mode.Diff? ==> CollisionFree(c.digest)) && i < c.n
    ensures Target(c, i) == c.vol[i] <==> (c.skipEmpty && AllZero(c.vol[i]) ==> AllZero(c.base[i]))
  {
    NeedToWriteIffNotZero(c.vol[i]);
    if SameDigest(c, i) {
      assert c.base[i] == c.vol[i];
    } else if c.skipEmpty && AllZero(c.vol[i]) && AllZero(c.base[i]) {
      assert c.base[i] == c.vol[i];
    }
  }

  // skipEmptyBlock is right exactly when what it skips is already empty on the target.
  lemma TargetIsVolume(c: Config)
    requires ValidConfig(c) && PreviousTruthful(c) && (c.mode.Diff? ==> CollisionFree(c.digest))
    ensures (forall i :: 0 <= i < c.n ==> Target(c, i) == c.vol[i]) <==> SkipsRightly(c)
  {
    forall i | 0 <= i < c.n
      ensures Target(c, i) == c.vol[i] <==> (c.skipEmpty && AllZero(c.vol[i]) ==> AllZero(c.base[i]))
    {
      TargetIsVolumeAt(c, i);
    }
  }

  // ---------------------------------------------------------------- running a finished session again

  // Every block is restored from the checkpoint, and none is on its way.
  ghost predicate Finished(c: Config, s: State) {
    |s.hist.loc| == c.n && !s.rd.pc.RCount? && forall i :: 0 <= i < c.n ==> s.hist.loc[i].Restored?
  }

  predicate LeftAlone(s: State, s': State) {
    s'.copy == s.copy && s'.table == s.table && s'.pool == s.pool && s'.hist.loc == s.hist.loc && s'.cnt == s.cnt
  }

  lemma ReaderIdle(c: Config, s: State, fail: bool)
    requires ReaderCan(c, s, fail) && ReaderAt(c, s.hist.loc, s.rd, s.hist.restored) && Finished(c, s)
    requires c.checkpoint || s.hist.restored == {}
    requires s.hist.restored <= s.bits.processed
    ensures LeftAlone(s, ReaderStep(c, s, fail)) && Finished(c, ReaderStep(c, s, fail))
  {}

  lemma WorkerIdle(c: Config, s: State, j: nat)
    requires WorkerCan(c, s, j) && Finished(c, s)
    requires WorkersAt(c, s.hist.loc, s.hs.ws) && QueueAt(c, s.hist.loc, s.hq.items, AtHashQueue)
    ensures LeftAlone(s, WorkerStep(c, s, j)) && Finished(c, WorkerStep(c, s, j))
  {
    assert !HasItem(s.hs.ws[j]);
    QueueHead(c, s.hist.loc, s.hq.items, AtHashQueue);
  }

  lemma WriterIdle(c: Config, s: State, fail: bool, junk: Block)
    requires WriterCan(c, s) && Finished(c, s)
    requires WriterAt(c, s.hist.loc, s.wr) && QueueAt(c, s.hist.loc, s.wq.items, AtWriteQueue)
    ensures LeftAlone(s, WriterStep(c, s, fail, junk)) && Finished(c, WriterStep(c, s, fail, junk))
  {
    assert !s.wr.pc.NGot? && !Finishing(s.wr.pc) && !s.wr.pc.NCount?;
    QueueHead(c, s.hist.loc, s.wq.items, AtWriteQueue);
  }

  lemma FinishedStep(c: Config, s: State, a: Action)
    requires ValidConfig(c) && Session.Core(c, s) && Enabled(c, s, a) && !a.Crash? && Finished(c, s)
    ensures LeftAlone(s, Next(c, s, a)) && Finished(c, Next(c, s, a)) && Session.Core(c, Next(c, s, a))
  {
    StepKeepsCore(c, s, a);
    match a
    case Reader(fail) => ReaderIdle(c, s, fail);
    case Worker(j) => WorkerIdle(c, s, j);
    case Writer(fail, junk) => WriterIdle(c, s, fail, junk);
    case Control(_, _) =>
  }

  // Started again with a checkpoint that names every block, a session reads nothing and writes nothing:
  // its target, its table and its counters stay as the restore has set them, to the end of the run.
  lemma FinishedRun(c: Config, s0: State, steps: seq<Action>, s: State)
    requires ValidConfig(c) && Session.Core(c, s0) && Finished(c, s0) && Reaches(c, s0, steps, s) && Runs.NoCrash(steps)
    ensures LeftAlone(s0, s)
  {
    hide Session.Core, Next, Enabled;
    var keep := (t: State) => Session.Core(c, t) && Finished(c, t) && LeftAlone(s0, t);
    forall t: State, a: Action | keep(t) && !a.Crash? && Enabled(c, t, a) ensures keep(Next(c, t, a)) {
      FinishedStep(c, t, a);
    }
    Runs.Induct(c, keep, (a: Action) => !a.Crash?, s0, steps, s);
  }

  lemma FinishedStart(c: Config, target: seq<Block>, f: Files, readTable: bool, readBits: bool)
    requires ValidConfig(c) && Startable(c, target, f) && Loads(c, f, readTable, readBits)
    requires forall i :: 0 <= i < c.n ==> i in f.ckptFile.value.processed
    ensures var s := Boot(c, target, f, readTable, readBits);
      && Session.Core(c, s) && Finished(c, s) && s.copy == target && s.cnt == RestoredCounters(c, f.ckptFile.value)
      && (c.hasher ==> f.tableFile == Some(s.table))
  {
    BootKeepsCore(c, target, f, readTable, readBits);
  }

  lemma FinishedSessionIsIdle(c: Config, target: seq<Block>, f: Files, readTable: bool, readBits: bool,
                              steps: seq<Action>, s: State)
    requires ValidConfig(c) && Startable(c, target, f) && Loads(c, f, readTable, readBits)
    requires forall i :: 0 <= i < c.n ==> i in f.ckptFile.value.processed
    requires Reaches(c, Boot(c, target, f, readTable, readBits), steps, s) && Runs.NoCrash(steps)
    ensures s.copy == target && s.pool == Boot(c, target, f, readTable, readBits).pool
    ensures c.hasher ==> f.tableFile == Some(s.table)
    ensures s.cnt == RestoredCounters(c, f.ckptFile.value)
  {
    FinishedStart(c, target, f, readTable, readBits);
    FinishedRun(c, Boot(c, target, f, readTable, readBits), steps, s);
  }
}
