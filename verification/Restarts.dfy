/** What a run starts from: what a checkpoint gives back, how long it is kept, and what is left of it
    once it has been cleared. */
module Restarts {
  import opened Common
  import opened Pipeline
  import opened Frames
  import opened Runs
  import opened Stages
  import opened Session
  import ControlThread

  // The session has come to its end, and the main thread is about to clear its checkpoint.
  predicate Ended(s: State) { s.ct.pc.CEnd? && s.ct.pc.completed }

  // ---------------------------------------------------------------- with a checkpoint

  // A run that takes up a checkpoint has exactly its blocks behind it, and goes on with the first
  // block that is not among them.
  lemma ResumesWhereItStopped(c: Config, target: seq<Block>, f: Files, readTable: bool, readBits: bool)
    requires ValidConfig(c) && Startable(c, target, f) && Loads(c, f, readTable, readBits)
    ensures var s := Boot(c, target, f, readTable, readBits);
      && s.bits == f.ckptFile.value && (c.hasher ==> f.tableFile == Some(s.table))
      && |s.hist.loc| == c.n
      && (forall i :: 0 <= i < c.n ==>
            s.hist.loc[i] == if i in f.ckptFile.value.processed then Restored else Todo)
      && s.rd.cur <= c.n && (forall i: nat :: i < s.rd.cur ==> i in f.ckptFile.value.processed)
      && s.rd.cur !in f.ckptFile.value.processed
  {
    FirstUnsetBound(c, f.ckptFile.value.processed);
  }

  lemma ReaderLeavesFiles(c: Config, s: State, fail: bool)
    requires ReaderCan(c, s, fail)
    ensures ReaderStep(c, s, fail).files == s.files && ReaderStep(c, s, fail).ct == s.ct
  {
    ReaderEffect(c, s, fail);
  }

  lemma WorkerLeavesFiles(c: Config, s: State, j: nat)
    requires WorkerCan(c, s, j)
    ensures WorkerStep(c, s, j).files == s.files && WorkerStep(c, s, j).ct == s.ct
  {}

  lemma WriterLeavesCheckpoint(c: Config, s: State, fail: bool, junk: Block)
    requires WriterCan(c, s)
    ensures var s' := WriterStep(c, s, fail, junk);
      s'.ct == s.ct && s'.files == s.files.(fileBad := s'.files.fileBad)
  {}

  lemma StepKeepsCheckpoint(c: Config, s: State, a: Action)
    requires Enabled(c, s, a) && s.files.ckptFile.Some? && !(a.Control? && Ended(s))
    ensures Next(c, s, a).files.ckptFile.Some?
  {
    match a
    case Reader(fail) => ReaderLeavesFiles(c, s, fail);
    case Worker(j) => WorkerLeavesFiles(c, s, j);
    case Writer(fail, junk) => WriterLeavesCheckpoint(c, s, fail, junk);
    case Control(_, _) =>
    case Crash(_, _, _, _) =>
  }

  // A saved checkpoint is kept through any failures, aborts and crashes until a session has come to its end.
  lemma CheckpointsAreKept(c: Config, s: State, steps: seq<Action>, s': State)
    requires s.files.ckptFile.Some? && Through(c, (t: State) => !Ended(t), s, steps, s')
    ensures s'.files.ckptFile.Some?
  {
    var keep := (t: State) => t.files.ckptFile.Some?;
    var stays := (t: State) => !Ended(t);
    forall t: State, a: Action | keep(t) && stays(t) && Enabled(c, t, a) && stays(Next(c, t, a))
      ensures keep(Next(c, t, a))
    {
      StepKeepsCheckpoint(c, t, a);
    }
    InductThrough(c, keep, stays, s, steps, s');
  }

  // ---------------------------------------------------------------- the last one

  // The bits in the first k bytes.
  ghost function UpTo(x: set<nat>, k: nat): set<nat> { set i | i in x && i / 8 < k }

  lemma NextByte(x: set<nat>, k: nat)
    ensures UpTo(x, k + 1) == UpTo(x, k) + ByteOf(x, k)
  {}

  lemma AllBytes(c: Config, x: set<nat>)
    requires forall i :: i in x ==> i < c.n
    ensures UpTo(x, Capacity(c.n)) == x
  {}

  // What has been copied of the bitmaps since all threads have ended.
  ghost predicate FinalCopy(c: Config, s: State) {
    match s.ct.pc
    case CCopyP(k, p, why) => why.Final? ==> k <= Capacity(c.n) && p == UpTo(s.bits.processed, k)
    case CCopyW(k, p, w, why) =>
      why.Final? ==> k <= Capacity(c.n) && p == s.bits.processed && w == UpTo(s.bits.written, k)
    case FSave(snap, _) => snap == s.bits
    case _ => true
  }

  lemma StillAtTheEnd(c: Config, s: State, a: Action)
    requires ValidConfig(c) && Core(c, s) && Enabled(c, s, a) && !a.Crash? && !a.Control?
    requires ControlThread.Ending(s.ct.pc)
    ensures Next(c, s, a).bits == s.bits && Next(c, s, a).ct == s.ct
  {
    ControlThread.EndedIsStill(c, s);
    match a
    case Reader(fail) => ReaderEffect(c, s, fail);
    case Worker(j) => WorkerLeavesFiles(c, s, j);
    case Writer(fail, junk) => WriterLeavesCheckpoint(c, s, fail, junk);
  }

  lemma ProcessedGoesOn(c: Config, s: State, choice: Choice, ok: bool)
    requires ControlCan(c, s, choice) && BitsAt(c, s) && FinalCopy(c, s) && s.ct.pc.CCopyP?
    ensures FinalCopy(c, ControlStep(c, s, choice, ok))
  {
    AllBytes(c, s.bits.processed);
    NextByte(s.bits.processed, s.ct.pc.k);
  }

  lemma WrittenGoesOn(c: Config, s: State, choice: Choice, ok: bool)
    requires ControlCan(c, s, choice) && BitsAt(c, s) && FinalCopy(c, s) && s.ct.pc.CCopyW?
    ensures FinalCopy(c, ControlStep(c, s, choice, ok))
  {
    AllBytes(c, s.bits.written);
    NextByte(s.bits.written, s.ct.pc.k);
  }

  lemma FinalCopyGoesOn(c: Config, s: State, choice: Choice, ok: bool)
    requires ControlCan(c, s, choice) && BitsAt(c, s) && FinalCopy(c, s)
    ensures FinalCopy(c, ControlStep(c, s, choice, ok))
  {
    if s.ct.pc.CCopyP? {
      ProcessedGoesOn(c, s, choice, ok);
    } else if s.ct.pc.CCopyW? {
      WrittenGoesOn(c, s, choice, ok);
    }
  }

  lemma OthersKeepFinalCopy(c: Config, s: State, a: Action)
    requires ValidConfig(c) && Core(c, s) && Enabled(c, s, a) && !a.Crash? && !a.Control? && FinalCopy(c, s)
    ensures FinalCopy(c, Next(c, s, a))
  {
    if ControlThread.Ending(s.ct.pc) {
      StillAtTheEnd(c, s, a);
    } else {
      match a
      case Reader(fail) => ReaderLeavesFiles(c, s, fail);
      case Worker(j) => WorkerLeavesFiles(c, s, j);
      case Writer(fail, junk) => WriterLeavesCheckpoint(c, s, fail, junk);
    }
  }

  lemma StepKeepsFinalCopy(c: Config, s: State, a: Action)
    requires ValidConfig(c) && Core(c, s) && Enabled(c, s, a) && FinalCopy(c, s)
    ensures FinalCopy(c, Next(c, s, a))
  {
    if a.Control? {
      FinalCopyGoesOn(c, s, a.choice, a.ok);
    } else if !a.Crash? {
      OthersKeepFinalCopy(c, s, a);
    }
  }

  lemma InitFinalCopy(c: Config)
    ensures FinalCopy(c, Init(c))
  {}

  lemma ReachableFinalCopy(c: Config, steps: seq<Action>, s: State)
    requires ValidConfig(c) && Reaches(c, Init(c), steps, s)
    ensures Core(c, s) && FinalCopy(c, s)
  {
    hide Core, FinalCopy;
    var keep := (t: State) => Core(c, t) && FinalCopy(c, t);
    ReachableCore(c, [], Init(c));
    InitFinalCopy(c);
    forall t: State, a: Action | keep(t) && Enabled(c, t, a) ensures keep(Next(c, t, a)) {
      StepKeepsCore(c, t, a);
      StepKeepsFinalCopy(c, t, a);
    }
    Induct(c, keep, (a: Action) => true, Init(c), steps, s);
  }

  // A session comes to its end with a save of the bits as they finally are; if the save succeeds, the
  // checkpoint has them all.
  lemma EndsWithLastSave(c: Config, steps: seq<Action>, s: State, choice: Choice, ok: bool)
    requires ValidConfig(c) && Reaches(c, Init(c), steps, s) && ControlCan(c, s, choice) && !Ended(s)
    requires Ended(ControlStep(c, s, choice, ok))
    ensures c.checkpoint && ok ==> ControlStep(c, s, choice, ok).files.ckptFile == Some(s.bits)
    ensures AllTerminal(s)
  {
    ReachableFinalCopy(c, steps, s);
  }

  lemma StepSavesNoTable(c: Config, s: State, a: Action)
    requires Enabled(c, s, a) && !c.hasher && s.files.tableFile.None?
    ensures Next(c, s, a).files.tableFile.None?
  {
    match a
    case Reader(fail) => ReaderLeavesFiles(c, s, fail);
    case Worker(j) => WorkerLeavesFiles(c, s, j);
    case Writer(fail, junk) => WriterLeavesCheckpoint(c, s, fail, junk);
    case Control(_, _) =>
    case Crash(_, _, _, _) =>
  }

  // A session that does not hash, as every restore, saves no table.
  lemma NoTableWithoutHasher(c: Config, steps: seq<Action>, s: State)
    requires !c.hasher && Reaches(c, Init(c), steps, s)
    ensures s.files.tableFile.None?
  {
    var keep := (t: State) => t.files.tableFile.None?;
    forall t: State, a: Action | keep(t) && Enabled(c, t, a) ensures keep(Next(c, t, a)) {
      StepSavesNoTable(c, t, a);
    }
    Induct(c, keep, (a: Action) => true, Init(c), steps, s);
  }

  // ---------------------------------------------------------------- without one

  // No block done, no bit set, no digest computed, nothing counted.
  ghost predicate Afresh(c: Config, s: State) {
    && s.hist.loc == seq(c.n, _ => Todo) && s.hist.restored == {} && s.bits == Snap({}, {}) && s.rd.cur == 0
    && s.table == seq(c.n, _ => ZERO_DIGEST) && s.cnt == Counters(c.size, 0, 0, 0, 0, 0)
    && !s.hist.memBad && !s.hist.hashBad
  }

  lemma NothingUnset(c: Config)
    ensures FirstUnset({}, c.n) == 0
  {}

  lemma WithoutCheckpoint(c: Config, target: seq<Block>, f: Files, readTable: bool, readBits: bool)
    requires f.ckptFile.None?
    ensures var s := Boot(c, target, f, readTable, readBits); Afresh(c, s) && s.copy == target && s.files == f
  {
    NothingUnset(c);
  }

  // What clearing the checkpoint leaves, after the end of a session; without checkpoints nothing is cleared.
  function Cleared(c: Config, s: State, ok: bool): State
    requires ControlCan(c, s, Clear) && Ended(s)
  {
    ControlStep(c, s, Clear, ok)
  }

  predicate NoCheckpointLeft(s: State) { s.files.ckptFile.None? && Ended(s) }

  lemma StaysCleared(c: Config, s: State, a: Action)
    requires Enabled(c, s, a) && !a.Crash? && NoCheckpointLeft(s)
    ensures NoCheckpointLeft(Next(c, s, a))
  {
    match a
    case Reader(fail) => ReaderLeavesFiles(c, s, fail);
    case Worker(j) => WorkerLeavesFiles(c, s, j);
    case Writer(fail, junk) => WriterLeavesCheckpoint(c, s, fail, junk);
    case Control(_, _) =>
  }

  // Once the checkpoint of a session has been cleared, every run that finds what the session leaves
  // starts afresh, of whatever session, wherever a crash has come, and whatever it can read: a table
  // left behind is not taken up either.
  lemma ClearedStartsAfresh(c: Config, s: State, ok: bool, after: seq<Action>, s': State, torn: seq<Block>,
                            machine: bool, d: Config, f: Files, readTable: bool, readBits: bool)
    requires ControlCan(c, s, Clear) && Ended(s) && (s.files.ckptFile.Some? ==> c.checkpoint)
    requires Reaches(c, Cleared(c, s, ok), after, s') && NoCrash(after)
    requires Enabled(c, s', Crash(torn, machine, readTable, readBits))
    requires f.ckptFile == FilesFound(s', torn, machine).ckptFile
    ensures Afresh(d, Boot(d, Found(s', torn, machine), f, readTable, readBits))
  {
    var keep := (t: State) => NoCheckpointLeft(t);
    forall t: State, a: Action | keep(t) && !a.Crash? && Enabled(c, t, a) ensures keep(Next(c, t, a)) {
      StaysCleared(c, t, a);
    }
    Induct(c, keep, (a: Action) => !a.Crash?, Cleared(c, s, ok), after, s');
    WithoutCheckpoint(d, Found(s', torn, machine), f, readTable, readBits);
  }

  // ---------------------------------------------------------------- the next backup

  // The first run of the next backup: it finds the copy and the cleared checkpoint directory, and has a
  // new directory for its table.
  ghost predicate StartsOver(c: Config, s: State, d: Config, t: State) {
    exists ok, readTable, readBits ::
      && ControlCan(c, s, Clear) && Ended(s)
      && t == Boot(d, s.copy, Cleared(c, s, ok).files.(tableFile := None), readTable, readBits)
  }

  // What a session leaves that has met no failure.
  predicate OnlyItsOwn(c: Config, f: Files) {
    !f.syncBad && !f.fileBad && !f.tableBad && (f.ckptFile.Some? ==> c.checkpoint)
  }

  // It starts as the first backup of all would on this copy.
  lemma StartsOverAfresh(c: Config, s: State, d: Config, t: State)
    requires StartsOver(c, s, d, t) && s.copy == s.files.disk == d.base && OnlyItsOwn(c, s.files)
    ensures t == Init(d)
  {
    var ok, readTable, readBits :|
      && ControlCan(c, s, Clear) && Ended(s)
      && t == Boot(d, s.copy, Cleared(c, s, ok).files.(tableFile := None), readTable, readBits);
    var left := Cleared(c, s, ok).files.(tableFile := None);
    assert left == Files(d.base, None, None, false, false, false);
    assert t == Boot(d, d.base, left, false, false);
  }
}
