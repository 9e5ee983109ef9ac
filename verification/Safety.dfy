/** Sessions that no failure can harm. */
module Safety {
  import opened Common
  import opened Pipeline
  import opened Frames
  import opened Stages
  import opened Durability
  import opened Convergence
  import ControlThread
  import Ownership
  import Session

  // The session never writes a block.
  ghost predicate AllKept(c: Config)
    requires ValidConfig(c)
  {
    forall i :: 0 <= i < c.n ==> Keeps(c, i)
  }

  // The target holds before the session what it should hold after it.
  ghost predicate NothingNew(c: Config)
    requires ValidConfig(c)
  {
    forall i :: 0 <= i < c.n ==> Target(c, i) == c.base[i]
  }

  lemma NotFailed(c: Config, s: State)
    requires ValidConfig(c) && Session.Core(c, s) && Succeeded(s)
    ensures !HasFailed(s.wr)
  {}

  // ---------------------------------------------------------------- without checkpoints

  // Every run starts from nothing, so only a Write that has failed in this one can be to blame.
  ghost predicate NoCheckpoint(s: State) {
    && s.files.ckptFile.None? && !ControlThread.Refreshing(s.ct.pc)
    && (s.hist.memBad || s.hist.hashBad ==> HasFailed(s.wr))
  }

  lemma NoCheckpointWorker(c: Config, s: State, j: nat)
    requires NoCheckpoint(s) && WorkerCan(c, s, j) && (!s.wr.failed ==> HashesItsOwn(c, s, j))
    ensures NoCheckpoint(WorkerStep(c, s, j))
  {}

  lemma NoCheckpointWriter(c: Config, s: State, fail: bool, junk: Block)
    requires NoCheckpoint(s) && WriterCan(c, s)
    ensures NoCheckpoint(WriterStep(c, s, fail, junk))
  {}

  lemma NoCheckpointControl(c: Config, s: State, choice: Choice, ok: bool)
    requires !c.checkpoint && NoCheckpoint(s) && ControlCan(c, s, choice)
    ensures NoCheckpoint(ControlStep(c, s, choice, ok))
  {}

  lemma NoCheckpointStep(c: Config, s: State, a: Action)
    requires !c.checkpoint && NoCheckpoint(s) && Enabled(c, s, a) && (!s.wr.failed ==> HashesRightly(c, s, a))
    ensures NoCheckpoint(Next(c, s, a))
  {
    match a
    case Reader(fail) => ReaderLeavesNoTrace(c, s, fail);
    case Worker(j) => NoCheckpointWorker(c, s, j);
    case Writer(fail, junk) => NoCheckpointWriter(c, s, fail, junk);
    case Control(choice, ok) => NoCheckpointControl(c, s, choice, ok);
    case Crash(_, _, _, _) =>
  }

  lemma NoCheckpointTurn(c: Config, fs: set<Failure>, s: State, a: Action)
    requires ValidConfig(c) && Comparable(c) && !c.checkpoint && NoCheckpoint(s) && TrustedInv(c, fs, s)
    requires Enabled(c, s, a) && Tolerates(c, s, a, fs)
    ensures NoCheckpoint(Next(c, s, a)) && TrustedInv(c, fs, Next(c, s, a))
  {
    if !s.wr.failed { SoundBuffers(c, s, a); }
    NoCheckpointStep(c, s, a);
    TrustedStep(c, fs, s, a);
  }

  lemma NoCheckpointReached(c: Config, fs: set<Failure>, steps: seq<Action>, s: State)
    requires ValidConfig(c) && Comparable(c) && !c.checkpoint && RunsWith(c, fs, Init(c), steps, s)
    ensures NoCheckpoint(s) && TrustedInv(c, fs, s)
  {
    var keep := (t: State) => ValidConfig(c) && NoCheckpoint(t) && TrustedInv(c, fs, t);
    StartIsTrusted(c, fs);
    forall t: State, a: Action | keep(t) && Enabled(c, t, a) && Tolerates(c, t, a, fs) ensures keep(Next(c, t, a)) {
      NoCheckpointTurn(c, fs, t, a);
    }
    RunKeeps(c, fs, keep, Init(c), steps, s);
  }

  // Whatever fails and wherever it crashes, a session without checkpoints that ends in success is right.
  lemma WithoutCheckpoints(c: Config, fs: set<Failure>, steps: seq<Action>, s: State)
    requires ValidConfig(c) && Comparable(c) && !c.checkpoint && RunsWith(c, fs, Init(c), steps, s) && Succeeded(s)
    ensures CopyRight(c, s) && (c.hasher ==> TableRight(c, s))
  {
    NoCheckpointReached(c, fs, steps, s);
    NotFailed(c, s);
    SuccessfulState(c, s);
  }

  // ---------------------------------------------------------------- nothing to write

  // Blocks that are never written are never harmed.
  lemma WithAllKept(c: Config, fs: set<Failure>, steps: seq<Action>, s: State)
    requires ValidConfig(c) && Comparable(c) && AllKept(c) && RunsWith(c, fs, Init(c), steps, s)
    ensures CopyRight(c, s)
  {
    RunIsTrusted(c, fs, steps, s);
    assert KeptBlocks(c, s);
  }

  // While no Write fails, writing what is there already changes nothing, in memory or on disk.
  ghost predicate AsBefore(c: Config, s: State) { s.copy == s.files.disk == c.base && !HasFailed(s.wr) }

  lemma AsBeforeReader(c: Config, s: State, fail: bool)
    requires AsBefore(c, s) && ReaderCan(c, s, fail)
    ensures AsBefore(c, ReaderStep(c, s, fail))
  {}

  lemma AsBeforeWorker(c: Config, s: State, j: nat)
    requires AsBefore(c, s) && WorkerCan(c, s, j)
    ensures AsBefore(c, WorkerStep(c, s, j))
  {}

  lemma AsBeforeWriter(c: Config, s: State, fail: bool, junk: Block)
    requires ValidConfig(c) && NothingNew(c) && AsBefore(c, s) && WriterCan(c, s) && !(s.wr.pc.NGot? && fail)
    requires WriterAt(c, s.hist.loc, s.wr) && DecidedAt(c, s.hist.loc, s.hs.ws)
    requires s.wr.pc.NGot? ==> Ownership.Owned(c, s.pool, s.wr.pc.b)
    ensures AsBefore(c, WriterStep(c, s, fail, junk))
  {
    if s.wr.pc.NGot? {
      var i := s.wr.pc.b.index;
      assert NeedToWrite(c.skipEmpty, c.vol[i]) ==> !Keeps(c, i) && c.vol[i] == c.base[i];
      assert c.base[i := c.base[i]] == c.base;
    }
  }

  lemma AsBeforeStep(c: Config, fs: set<Failure>, s: State, a: Action)
    requires ValidConfig(c) && NothingNew(c) && AsBefore(c, s) && Session.Inv(c, s)
    requires Enabled(c, s, a) && Tolerates(c, s, a, fs) && WriteFails !in fs
    ensures AsBefore(c, Next(c, s, a))
  {
    match a
    case Reader(fail) => AsBeforeReader(c, s, fail);
    case Worker(j) => AsBeforeWorker(c, s, j);
    case Writer(fail, junk) => AsBeforeWriter(c, s, fail, junk);
    case Control(choice, ok) =>
      ControlFrames(c, s, choice, ok);
      DiskIsFlushed(c, s, ok);
    case Crash(torn, machine, _, _) => assert Found(s, torn, machine) == c.base;
  }

  lemma AsBeforeTurn(c: Config, fs: set<Failure>, s: State, a: Action)
    requires ValidConfig(c) && Comparable(c) && NothingNew(c) && AsBefore(c, s) && TrustedInv(c, fs, s)
    requires Enabled(c, s, a) && Tolerates(c, s, a, fs) && WriteFails !in fs
    ensures AsBefore(c, Next(c, s, a)) && TrustedInv(c, fs, Next(c, s, a))
  {
    AsBeforeStep(c, fs, s, a);
    TrustedStep(c, fs, s, a);
  }

  lemma AsBeforeStart(c: Config, fs: set<Failure>)
    requires ValidConfig(c)
    ensures AsBefore(c, Init(c)) && TrustedInv(c, fs, Init(c))
  {
    StartIsTrusted(c, fs);
  }

  lemma AsBeforeReached(c: Config, fs: set<Failure>, steps: seq<Action>, s: State)
    requires ValidConfig(c) && Comparable(c) && NothingNew(c) && WriteFails !in fs
    requires RunsWith(c, fs, Init(c), steps, s)
    ensures AsBefore(c, s)
  {
    var keep := (t: State) => ValidConfig(c) && AsBefore(c, t) && TrustedInv(c, fs, t);
    AsBeforeStart(c, fs);
    forall t: State, a: Action | keep(t) && Enabled(c, t, a) && Tolerates(c, t, a, fs) ensures keep(Next(c, t, a)) {
      AsBeforeTurn(c, fs, t, a);
    }
    RunKeeps(c, fs, keep, Init(c), steps, s);
  }

  lemma WithNothingNew(c: Config, fs: set<Failure>, steps: seq<Action>, s: State)
    requires ValidConfig(c) && Comparable(c) && NothingNew(c) && WriteFails !in fs
    requires RunsWith(c, fs, Init(c), steps, s)
    ensures CopyRight(c, s)
  {
    AsBeforeReached(c, fs, steps, s);
  }

  // ---------------------------------------------------------------- harmless failures

  // A lost or unreadable table does no harm to the blocks, and a failed fsync none to the digests.
  lemma WithoutSpoilers(c: Config, fs: set<Failure>, steps: seq<Action>, s: State)
    requires ValidConfig(c) && Comparable(c) && RunsWith(c, fs, Init(c), steps, s) && Succeeded(s)
    ensures fs !! COPY_SPOILERS ==> CopyRight(c, s)
    ensures c.hasher && WriteFails !in fs && fs !! TABLE_LOSSES ==> TableRight(c, s)
  {
    RunIsTrusted(c, fs, steps, s);
    SuccessfulState(c, s);
  }
}
