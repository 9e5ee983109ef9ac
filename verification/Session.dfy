/** All invariants together, over every run with any number of crashes and restarts. */
module Session {
  import opened Common
  import opened Pipeline
  import opened Frames
  import opened WorkerSums
  import opened Stages
  import opened Durability
  import Handshake
  import Runs
  import StageSteps
  import Ownership
  import Bounds
  import Holders
  import ControlThread
  import Checkpoint
  import Cut
  import Counting
  import Totals

  // Where the blocks, the buffers, the bits and the counters are.
  ghost predicate Core(c: Config, s: State) {
    && Handshake.Inv(c, s)
    && Stages.Inv(c, s)
    && Ownership.Inv(c, s)
    && Bounds.Inv(c, s)
    && Holders.Inv(c, s)
    && ControlThread.Inv(c, s)
    && Cut.Inv(c, s)
    && Counting.Inv(c, s)
    && LengthsKept(c, s)
  }

  // And what the target, the table and the files hold.
  ghost predicate Inv(c: Config, s: State)
    requires ValidConfig(c)
  {
    Core(c, s) && Checkpoint.Inv(c, s)
  }

  // ---------------------------------------------------------------- steps

  lemma ReaderKeepsCore(c: Config, s: State, fail: bool)
    requires ValidConfig(c) && Core(c, s) && ReaderCan(c, s, fail)
    ensures Core(c, ReaderStep(c, s, fail))
  {
    Handshake.ReaderKeeps(c, s, fail);
    StageSteps.ReaderKeeps(c, s, fail);
    Ownership.ReaderKeeps(c, s, fail);
    Bounds.ReaderKeeps(c, s, fail);
    Holders.ReaderKeeps(c, s, fail);
    ControlThread.ReaderKeeps(c, s, fail);
    Cut.ReaderKeeps(c, s, fail);
    Counting.ReaderKeeps(c, s, fail);
    ControlThread.ReaderGrows(c, s, fail);
  }

  lemma WorkerKeepsCore(c: Config, s: State, j: nat)
    requires ValidConfig(c) && Core(c, s) && WorkerCan(c, s, j)
    ensures Core(c, WorkerStep(c, s, j))
  {
    hide Handshake.Inv, Stages.Inv, Ownership.Inv, Bounds.Inv, Holders.Inv, Cut.Inv, Counting.Inv;
    Handshake.WorkerKeeps(c, s, j);
    StageSteps.WorkerKeeps(c, s, j);
    Ownership.WorkerKeeps(c, s, j);
    Bounds.WorkerKeeps(c, s, j);
    Holders.WorkerKeeps(c, s, j);
    ControlThread.WorkerKeeps(c, s, j);
    Cut.WorkerKeeps(c, s, j);
    Counting.WorkerKeeps(c, s, j);
    ControlThread.WorkerGrows(c, s, j);
  }

  lemma WriterKeepsCore(c: Config, s: State, fail: bool, junk: Block)
    requires ValidConfig(c) && Core(c, s) && Enabled(c, s, Writer(fail, junk))
    ensures Core(c, WriterStep(c, s, fail, junk))
  {
    Handshake.WriterKeeps(c, s, fail, junk);
    StageSteps.WriterKeeps(c, s, fail, junk);
    Ownership.WriterKeeps(c, s, fail, junk);
    Bounds.WriterKeeps(c, s, fail, junk);
    Holders.WriterKeeps(c, s, fail, junk);
    ControlThread.WriterKeeps(c, s, fail, junk);
    Cut.WriterKeeps(c, s, fail, junk);
    Counting.WriterKeeps(c, s, fail, junk);
    WriterKeepsLengths(c, s, fail, junk);
  }

  lemma ControlKeepsCore(c: Config, s: State, choice: Choice, ok: bool)
    requires ValidConfig(c) && Core(c, s) && ControlCan(c, s, choice)
    ensures Core(c, ControlStep(c, s, choice, ok))
  {
    var s' := ControlStep(c, s, choice, ok);
    ControlFrames(c, s, choice, ok);
    DiskIsFlushed(c, s, ok);
    Handshake.ControlKeeps(c, s, s');
    StageSteps.ControlKeeps(c, s, s');
    Ownership.ControlKeeps(c, s, s');
    Bounds.ControlKeeps(c, s, s');
    Holders.ControlKeeps(c, s, s');
    ControlThread.ControlKeeps(c, s, choice, ok);
    Cut.ControlKeeps(c, s, choice, ok);
    Counting.ControlKeeps(c, s, s');
  }

  // ---------------------------------------------------------------- starting

  // What a run can start from at all.
  ghost predicate Startable(c: Config, target: seq<Block>, f: Files)
    requires ValidConfig(c)
  {
    && |target| == |f.disk| == c.n
    && (forall i :: 0 <= i < c.n ==> |target[i]| == |f.disk[i]| == |c.vol[i]|)
    && ControlThread.FilesBounded(c, f)
    && (c.mode.Direct? && f.ckptFile.Some? ==> f.ckptFile.value.processed <= f.ckptFile.value.written)
  }

  // What the checkpoint names is right, as far as the history does not say otherwise.
  ghost predicate VouchedFor(c: Config, target: seq<Block>, f: Files)
    requires ValidConfig(c) && |target| == |f.disk| == c.n
  {
    f.ckptFile.Some? ==>
      var p := f.ckptFile.value.processed;
      && (!f.fileBad ==> Checkpoint.Right(c, target, p) && Checkpoint.Right(c, f.disk, p))
      && (!f.tableBad ==> Checkpoint.Covered(c, f, p))
  }

  // What the target and the files must hold for the result to be right.
  ghost predicate StartsRight(c: Config, target: seq<Block>, f: Files)
    requires ValidConfig(c)
  {
    && Startable(c, target, f)
    && (forall i :: 0 <= i < c.n && Keeps(c, i) ==> target[i] == f.disk[i] == c.base[i])
    && VouchedFor(c, target, f)
  }

  lemma BootHandshake(c: Config, target: seq<Block>, f: Files, readTable: bool, readBits: bool)
    requires ValidConfig(c) && Startable(c, target, f)
    ensures var s := Boot(c, target, f, readTable, readBits); Handshake.Inv(c, s) && Bounds.Inv(c, s)
  {
    var s := Boot(c, target, f, readTable, readBits);
    SumZero(c, Counting, s.hs.ws);
    SumZero(c, Holding, s.hs.ws);
    if c.hasher { assert !s.hs.ws[0].WDone?; }
  }

  lemma {:induction false} TotalZero(c: Config, k: Totals.Kind, loc: seq<Loc>)
    requires forall i :: 0 <= i < |loc| ==> Totals.Weight(c, k, loc[i], i) == 0
    ensures Totals.Total(c, k, loc) == 0
    decreases |loc|
  {
    if loc != [] { TotalZero(c, k, loc[..|loc| - 1]); }
  }

  lemma BootCounting(c: Config, target: seq<Block>, f: Files, readTable: bool, readBits: bool)
    requires ValidConfig(c) && Startable(c, target, f)
    ensures Counting.Inv(c, Boot(c, target, f, readTable, readBits))
  {
    var s := Boot(c, target, f, readTable, readBits);
    SumZero(c, Unhashed, s.hs.ws);
    SumZero(c, Charged, s.hs.ws);
    TotalZero(c, Totals.BytesRead, s.hist.loc);
    TotalZero(c, Totals.BlocksRead, s.hist.loc);
    TotalZero(c, Totals.BlocksPopped, s.hist.loc);
    TotalZero(c, Totals.BytesCharged, s.hist.loc);
    TotalZero(c, Totals.BytesDone, s.hist.loc);
  }

  lemma FirstUnsetBound(c: Config, x: set<nat>)
    requires ControlThread.Bounded(c, x)
    ensures FirstUnset(x, c.n) <= c.n
  {
    assert FirstUnset(x, c.n) > c.n ==> c.n in x;
  }

  lemma BootReader(c: Config, target: seq<Block>, f: Files, readTable: bool, readBits: bool)
    requires ValidConfig(c) && Startable(c, target, f)
    ensures var s := Boot(c, target, f, readTable, readBits);
      |s.hist.loc| == c.n && ReaderAt(c, s.hist.loc, s.rd, s.hist.restored)
  {
    FirstUnsetBound(c, Boot(c, target, f, readTable, readBits).bits.processed);
  }

  lemma BootStages(c: Config, target: seq<Block>, f: Files, readTable: bool, readBits: bool)
    requires ValidConfig(c) && Startable(c, target, f)
    ensures Stages.Inv(c, Boot(c, target, f, readTable, readBits))
  {
    BootReader(c, target, f, readTable, readBits);
  }

  lemma BootCut(c: Config, target: seq<Block>, f: Files, readTable: bool, readBits: bool)
    requires ValidConfig(c) && Startable(c, target, f)
    ensures var s := Boot(c, target, f, readTable, readBits);
      Ownership.Inv(c, s) && Cut.Inv(c, s) && Holders.Inv(c, s) && ControlThread.Inv(c, s) && LengthsKept(c, s)
  {}

  lemma BootKeepsCore(c: Config, target: seq<Block>, f: Files, readTable: bool, readBits: bool)
    requires ValidConfig(c) && Startable(c, target, f)
    ensures Core(c, Boot(c, target, f, readTable, readBits))
  {
    BootHandshake(c, target, f, readTable, readBits);
    BootCounting(c, target, f, readTable, readBits);
    BootStages(c, target, f, readTable, readBits);
    BootCut(c, target, f, readTable, readBits);
  }

  lemma BootCheckpoint(c: Config, target: seq<Block>, f: Files, readTable: bool, readBits: bool)
    requires ValidConfig(c) && StartsRight(c, target, f)
    ensures Checkpoint.Inv(c, Boot(c, target, f, readTable, readBits))
  {}

  lemma BootKeeps(c: Config, target: seq<Block>, f: Files, readTable: bool, readBits: bool)
    requires ValidConfig(c) && StartsRight(c, target, f)
    ensures Inv(c, Boot(c, target, f, readTable, readBits))
  {
    BootKeepsCore(c, target, f, readTable, readBits);
    BootCheckpoint(c, target, f, readTable, readBits);
  }

  // A crash at any moment, of the process or of the machine, leaves something a run can start from.
  lemma CrashLeavesStartable(c: Config, s: State, torn: seq<Block>, machine: bool)
    requires ValidConfig(c) && Core(c, s) && Enabled(c, s, Crash(torn, machine, true, true))
    ensures Startable(c, Found(s, torn, machine), FilesFound(s, torn, machine))
  {}

  // A block on which memory and disk agree survives.
  lemma KeptStays(c: Config, s: State, torn: seq<Block>, machine: bool)
    requires ValidConfig(c) && Checkpoint.Inv(c, s) && |torn| == c.n
    ensures var target, f := Found(s, torn, machine), FilesFound(s, torn, machine);
      && |target| == |f.disk| == c.n
      && (forall i :: 0 <= i < c.n && Keeps(c, i) ==> target[i] == f.disk[i] == c.base[i])
      && VouchedFor(c, target, f)
  {}

  lemma CrashLeavesRight(c: Config, s: State, torn: seq<Block>, machine: bool)
    requires ValidConfig(c) && Inv(c, s) && Enabled(c, s, Crash(torn, machine, true, true))
    ensures StartsRight(c, Found(s, torn, machine), FilesFound(s, torn, machine))
  {
    CrashLeavesStartable(c, s, torn, machine);
    KeptStays(c, s, torn, machine);
  }

  lemma InitStarts(c: Config)
    requires ValidConfig(c)
    ensures StartsRight(c, c.base, Files(c.base, None, None, false, false, false))
  {}

  // ---------------------------------------------------------------- every run

  lemma StepKeepsCore(c: Config, s: State, a: Action)
    requires ValidConfig(c) && Core(c, s) && Enabled(c, s, a)
    ensures Core(c, Next(c, s, a))
  {
    match a
    case Reader(fail) => ReaderKeepsCore(c, s, fail);
    case Worker(j) => WorkerKeepsCore(c, s, j);
    case Writer(fail, junk) => WriterKeepsCore(c, s, fail, junk);
    case Control(choice, ok) => ControlKeepsCore(c, s, choice, ok);
    case Crash(torn, machine, readTable, readBits) =>
      CrashLeavesStartable(c, s, torn, machine);
      BootKeepsCore(c, Found(s, torn, machine), FilesFound(s, torn, machine), readTable, readBits);
  }

  lemma StepKeepsContent(c: Config, s: State, a: Action)
    requires ValidConfig(c) && Comparable(c) && Inv(c, s) && Enabled(c, s, a)
    ensures Checkpoint.Inv(c, Next(c, s, a))
  {
    hide Handshake.Inv, Stages.Inv, Ownership.Inv, Bounds.Inv, Holders.Inv, Cut.Inv, Counting.Inv;
    match a
    case Reader(fail) => Checkpoint.ReaderKeeps(c, s, fail);
    case Worker(j) => Checkpoint.WorkerKeeps(c, s, j);
    case Writer(fail, junk) => Checkpoint.WriterKeeps(c, s, fail, junk);
    case Control(choice, ok) => Checkpoint.ControlKeeps(c, s, choice, ok);
    case Crash(torn, machine, readTable, readBits) =>
      CrashLeavesRight(c, s, torn, machine);
      BootCheckpoint(c, Found(s, torn, machine), FilesFound(s, torn, machine), readTable, readBits);
  }

  lemma StepKeeps(c: Config, s: State, a: Action)
    requires ValidConfig(c) && Comparable(c) && Inv(c, s) && Enabled(c, s, a)
    ensures Inv(c, Next(c, s, a))
  {
    StepKeepsCore(c, s, a);
    StepKeepsContent(c, s, a);
  }

  // Every reachable state, of sessions of any size and mode, keeps its blocks, buffers, bits and counters in order.
  lemma ReachableCore(c: Config, steps: seq<Action>, s: State)
    requires ValidConfig(c) && Reaches(c, Init(c), steps, s)
    ensures Core(c, s)
  {
    InitStarts(c);
    BootKeepsCore(c, c.base, Files(c.base, None, None, false, false, false), false, false);
    var keep := (t: State) => Core(c, t);
    forall t: State, a: Action | keep(t) && Enabled(c, t, a) ensures keep(Next(c, t, a)) { StepKeepsCore(c, t, a); }
    Runs.Induct(c, keep, _ => true, Init(c), steps, s);
  }

  lemma InitInv(c: Config)
    requires ValidConfig(c)
    ensures Inv(c, Init(c))
  {
    InitStarts(c);
    BootKeeps(c, c.base, Files(c.base, None, None, false, false, false), false, false);
  }

  lemma ReachableInv(c: Config, steps: seq<Action>, s: State)
    requires ValidConfig(c) && Comparable(c) && Reaches(c, Init(c), steps, s)
    ensures Inv(c, s)
  {
    InitInv(c);
    var keep := (t: State) => ValidConfig(c) && Inv(c, t);
    forall t: State, a: Action | keep(t) && Enabled(c, t, a) ensures keep(Next(c, t, a)) { StepKeeps(c, t, a); }
    Runs.Induct(c, keep, _ => true, Init(c), steps, s);
  }
}
