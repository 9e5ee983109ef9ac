/** Driving a session of any size and mode to where one wants it: pieces of runs that meet only
    the failures they are allowed to meet. */
module Driving {
  import opened Common
  import opened Pipeline
  import opened Frames
  import opened Stages
  import opened Durability
  import opened Convergence
  import opened QuietRuns
  import opened Progress
  import opened Restarts
  import ControlThread
  import Delivery
  import Session

  // s can be reached from the start with no failures but those of `fs`.
  ghost predicate Leads(c: Config, fs: set<Failure>, s: State) {
    exists steps :: RunsWith(c, fs, Init(c), steps, s)
  }

  lemma Start(c: Config, fs: set<Failure>)
    ensures Leads(c, fs, Init(c))
  {
    assert RunsWith(c, fs, Init(c), [], Init(c));
  }

  lemma RunsJoin(c: Config, fs: set<Failure>, s: State, steps: seq<Action>, mid: State, s': State)
    requires |steps| > 1 && RunsWith(c, fs, s, steps[..|steps| - 1], mid)
    requires RunsWith(c, fs, mid, steps[|steps| - 1..], s')
    ensures RunsWith(c, fs, s, steps, s')
  {}

  lemma RunGoesOn(c: Config, fs: set<Failure>, s0: State, steps: seq<Action>, s: State, a: Action)
    requires RunsWith(c, fs, s0, steps, s) && Enabled(c, s, a) && Tolerates(c, s, a, fs)
    ensures RunsWith(c, fs, s0, steps + [a], Next(c, s, a))
  {
    var more := steps + [a];
    assert RunsWith(c, fs, s, [a], Next(c, s, a));
    if steps == [] {
      assert more == [a];
    } else {
      assert more[..|more| - 1] == steps && more[|more| - 1..] == [a];
      RunsJoin(c, fs, s0, more, s, Next(c, s, a));
    }
  }

  lemma Go(c: Config, fs: set<Failure>, s: State, a: Action) returns (s': State)
    requires Leads(c, fs, s) && Enabled(c, s, a) && Tolerates(c, s, a, fs)
    ensures s' == Next(c, s, a) && Leads(c, fs, s')
  {
    s' := Next(c, s, a);
    var steps :| RunsWith(c, fs, Init(c), steps, s);
    RunGoesOn(c, fs, Init(c), steps, s, a);
  }

  lemma Reached(c: Config, fs: set<Failure>, s: State)
    requires ValidConfig(c) && Comparable(c) && Leads(c, fs, s)
    ensures Session.Inv(c, s)
  {
    var steps :| RunsWith(c, fs, Init(c), steps, s);
    RunIsTrusted(c, fs, steps, s);
  }

  // ---------------------------------------------------------------- the threads

  lemma GoQuietly(c: Config, fs: set<Failure>, s: State, a: Action) returns (s': State)
    requires ValidConfig(c) && Leads(c, fs, s) && Smooth(s) && Quietly(c, s, a) && Session.Core(c, s)
    ensures s' == Next(c, s, a) && Leads(c, fs, s') && Smooth(s') && NoTrace(s, s')
    ensures ThreadStep(a) && StepsLeft(c, s') < StepsLeft(c, s)
  {
    StaysSmooth(c, s, a);
    StepDecreases(c, s, a);
    s' := Go(c, fs, s, a);
  }

  lemma NotAllExited(c: Config, s: State, i: nat)
    requires ValidConfig(c) && Session.Core(c, s) && Smooth(s) && i < c.n && NotYet(s.hist.loc[i])
    ensures !AllExited(s)
  {
    if AllExited(s) {
      SmoothEnd(c, s);
      SuccessMeansDone(c, s);
    }
  }

  lemma StaysSized(c: Config, s: State, a: Action)
    requires Enabled(c, s, a) && ThreadStep(a)
    ensures Sized(c, Next(c, s, a))
  {
    match a
    case Reader(fail) => ReaderSizes(c, s, fail);
    case Worker(j) => WorkerSizes(c, s, j);
    case Writer(fail, junk) => WriterSizes(c, s, fail, junk);
  }

  lemma ReaderComesTo(c: Config, s: State, i: nat) returns (a: Action)
    requires ValidConfig(c) && Session.Core(c, s) && Smooth(s) && !s.ct.pause && i < c.n && NotYet(s.hist.loc[i])
    ensures Quietly(c, s, a) && BlockMoved(c, s, Next(c, s, a), i)
  {
    NotAllExited(c, s, i);
    a := SomeoneGoesOn(c, s);
    BlockMoves(c, s, a, i);
  }

  // One step on the way of block i to the queues.
  lemma ReadOn(c: Config, fs: set<Failure>, s: State, i: nat) returns (s': State)
    requires ValidConfig(c) && Comparable(c) && Leads(c, fs, s) && Smooth(s) && !s.ct.pause
    requires Sized(c, s) && i < c.n && (s.hist.loc[i].Todo? || s.hist.loc[i].AtReader?)
    ensures Leads(c, fs, s') && Smooth(s') && NoTrace(s, s') && Sized(c, s') && StepsLeft(c, s') < StepsLeft(c, s)
    ensures OnItsWay(s'.hist.loc[i]) || s'.hist.loc[i].Todo? || s'.hist.loc[i].AtReader?
    ensures s'.copy[i] == s.copy[i] && s'.table[i] == s.table[i]
  {
    hide Session.Core;
    Reached(c, fs, s);
    var a := ReaderComesTo(c, s, i);
    s' := GoQuietly(c, fs, s, a);
    StaysSized(c, s, a);
  }

  // The reader reads block i and hands it on.
  lemma {:induction false} ReadBlock(c: Config, fs: set<Failure>, s: State, i: nat) returns (s': State)
    requires ValidConfig(c) && Comparable(c) && Leads(c, fs, s) && Smooth(s) && !s.ct.pause
    requires Sized(c, s) && i < c.n && (s.hist.loc[i].Todo? || s.hist.loc[i].AtReader?)
    ensures Leads(c, fs, s') && Smooth(s') && NoTrace(s, s') && Sized(c, s')
    ensures OnItsWay(s'.hist.loc[i]) && s'.copy[i] == s.copy[i] && s'.table[i] == s.table[i]
    decreases StepsLeft(c, s)
  {
    s' := ReadOn(c, fs, s, i);
    if !OnItsWay(s'.hist.loc[i]) { s' := ReadBlock(c, fs, s', i); }
  }

  // Hashers and writer bring it to its end: to the writer if it has changed.
  lemma {:induction false} BringBlock(c: Config, fs: set<Failure>, s: State, i: nat) returns (s': State)
    requires ValidConfig(c) && Comparable(c) && Leads(c, fs, s) && Smooth(s)
    requires Sized(c, s) && i < c.n && OnItsWay(s.hist.loc[i])
    ensures Leads(c, fs, s') && Smooth(s') && NoTrace(s, s') && Sized(c, s')
    ensures AtItsEnd(s', i) && s'.copy[i] == s.copy[i]
    ensures !SameDigest(c, i) ==> s'.wr.pc.NGot? && s'.wr.pc.b.index == i
    decreases StepsLeft(c, s)
  {
    Reached(c, fs, s);
    var a := HolderGoesOn(c, s, i);
    BlockMoves(c, s, a, i);
    s' := GoQuietly(c, fs, s, a);
    StaysSized(c, s, a);
    if AtItsEnd(s', i) {
      if !SameDigest(c, i) { ChangedIsNotDropped(c, s, a, i); }
    } else {
      s' := BringBlock(c, fs, s', i);
    }
  }

  // All threads run to their end, and what has ended before stays as it is.
  lemma {:induction false} RunToEnd(c: Config, fs: set<Failure>, s: State) returns (s': State)
    requires ValidConfig(c) && Comparable(c) && Leads(c, fs, s) && Smooth(s) && !s.ct.pause
    ensures Leads(c, fs, s') && Smooth(s') && NoTrace(s, s') && AllExited(s') && Succeeded(s')
    ensures EndedKept(c, s, s')
    decreases StepsLeft(c, s)
  {
    hide Session.Inv, Session.Core;
    Reached(c, fs, s);
    if AllExited(s) {
      SmoothEnd(c, s);
      s' := s;
    } else {
      var a := SomeoneGoesOn(c, s);
      var mid := GoQuietly(c, fs, s, a);
      EndedKeptStep(c, s, a);
      s' := RunToEnd(c, fs, mid);
      EndedKeptTwice(c, s, mid, s');
    }
  }

  // ---------------------------------------------------------------- marking a block

  lemma GoWriter(c: Config, fs: set<Failure>, s: State, fail: bool, junk: Block) returns (s': State)
    requires Leads(c, fs, s) && Enabled(c, s, Writer(fail, junk)) && (s.wr.pc.NGot? && fail ==> WriteFails in fs)
    ensures s' == WriterStep(c, s, fail, junk) && Leads(c, fs, s') && Sized(c, s')
  {
    WriterSizes(c, s, fail, junk);
    s' := Go(c, fs, s, Writer(fail, junk));
  }

  // What the writer does with a block it has got, up to marking it.
  ghost predicate MarkedFrom(c: Config, s: State, s': State, i: nat)
    requires Sized(c, s) && Sized(c, s') && i < c.n
  {
    && s'.wr.pc.NFree? && i in s'.bits.processed && s'.hist.loc[i].Written?
    && s'.bits.processed <= s.bits.processed + {i}
    && s'.rd == s.rd && s'.hs == s.hs && s'.hq == s.hq && s'.wq == s.wq && s'.table == s.table && s'.ct == s.ct
    && s'.wr.status == s.wr.status
    && s'.files.(fileBad := s.files.fileBad) == s.files
  }

  lemma MarkBlock(c: Config, fs: set<Failure>, s: State) returns (s': State)
    requires Leads(c, fs, s) && Sized(c, s) && s.wr.pc.NSetW? && InRange(c, s.wr.pc.b)
    ensures Leads(c, fs, s') && Sized(c, s') && s'.wr == s.wr.(pc := NFree(s.wr.pc.b))
    ensures s.wr.pc.b.index in s'.bits.processed && s'.bits.processed <= s.bits.processed + {s.wr.pc.b.index}
    ensures s' == s.(wr := s'.wr, bits := s'.bits)
  {
    s' := GoWriter(c, fs, s, false, []);
    s' := GoWriter(c, fs, s', false, []);
    s' := GoWriter(c, fs, s', false, []);
  }

  // The writer writes block i, or fails to, and marks it all the same.
  lemma WriteBlock(c: Config, fs: set<Failure>, s: State, i: nat, fail: bool, junk: Block) returns (s': State)
    requires Leads(c, fs, s) && Sized(c, s) && i < c.n && s.wr.pc.NGot? && s.wr.pc.b.index == i && !s.wr.failed
    requires s.wr.pc.b.slot < ALLOCATOR_BLOCKS && (fail ==> WriteFails in fs && |junk| == |c.vol[i]|)
    ensures Leads(c, fs, s') && Sized(c, s') && MarkedFrom(c, s, s', i)
    ensures var block := s.pool.buf[s.wr.pc.b.slot];
      s'.copy == if NeedToWrite(c.skipEmpty, block) then s.copy[i := if fail then junk else block] else s.copy
    ensures !fail ==> s'.wr == s.wr.(pc := NFree(s.wr.pc.b)) && NoTrace(s, s') && s'.pool == s.pool
  {
    s' := GoWriter(c, fs, s, fail, junk);
    if s'.wr.pc.NFail? { s' := GoWriter(c, fs, s', false, []); }
    s' := MarkBlock(c, fs, s');
  }

  lemma GoWorker(c: Config, fs: set<Failure>, s: State, j: nat) returns (s': State)
    requires Leads(c, fs, s) && WorkerCan(c, s, j) && Smooth(s) && !s.hs.ws[j].WHash?
    ensures s' == WorkerStep(c, s, j) && Leads(c, fs, s') && Sized(c, s') && Smooth(s') && NoTrace(s, s')
  {
    WorkerSizes(c, s, j);
    WorkerStaysSmooth(c, s, j);
    WorkerLeavesNoTrace(c, s, j);
    s' := Go(c, fs, s, Worker(j));
  }

  // A worker marks the block it has dropped.
  lemma MarkDropped(c: Config, fs: set<Failure>, s: State, j: nat, i: nat) returns (s': State)
    requires Leads(c, fs, s) && Sized(c, s) && j < |s.hs.ws| && s.hs.ws[j] == WLoad(i) && Smooth(s)
    ensures Leads(c, fs, s') && Sized(c, s') && Smooth(s') && NoTrace(s, s') && i in s'.bits.processed
    ensures s' == s.(hs := s'.hs, bits := s'.bits)
  {
    s' := s;
    s' := GoWorker(c, fs, s', j);
    s' := GoWorker(c, fs, s', j);
  }

  lemma WhoEndsIt(c: Config, fs: set<Failure>, s: State, i: nat)
    requires ValidConfig(c) && Comparable(c) && Leads(c, fs, s) && Smooth(s)
    requires i < c.n && AtItsEnd(s, i)
    ensures Sized(c, s)
    ensures s.wr.pc.NGot? ==> s.wr.pc.b.slot < ALLOCATOR_BLOCKS && s.wr.pc.b.index < c.n
                              && s.pool.buf[s.wr.pc.b.slot] == c.vol[s.wr.pc.b.index]
    ensures !(s.wr.pc.NGot? && s.wr.pc.b.index == i) ==> s.hist.loc[i].Dropped?
  {
    Reached(c, fs, s);
  }

  // Whoever has block i at its end marks it. A changed block is then on the target.
  lemma EndBlock(c: Config, fs: set<Failure>, s: State, i: nat) returns (s': State)
    requires ValidConfig(c) && Comparable(c) && Leads(c, fs, s) && Smooth(s)
    requires Sized(c, s) && i < c.n && AtItsEnd(s, i)
    ensures Leads(c, fs, s') && Sized(c, s') && Smooth(s') && NoTrace(s, s')
    ensures i in s'.bits.processed && s'.table == s.table && Delivery.Ended(c, s', i)
    ensures s.wr.pc.NGot? && s.wr.pc.b.index == i && NeedToWrite(c.skipEmpty, c.vol[i]) ==>
              s'.copy == s.copy[i := c.vol[i]]
  {
    WhoEndsIt(c, fs, s, i);
    if s.wr.pc.NGot? && s.wr.pc.b.index == i {
      s' := WriteBlock(c, fs, s, i, false, []);
    } else {
      var j :| 0 <= j < |s.hs.ws| && s.hs.ws[j] == WLoad(i);
      s' := MarkDropped(c, fs, s, j, i);
    }
  }

  // ---------------------------------------------------------------- refreshes

  lemma GoControl(c: Config, fs: set<Failure>, s: State, choice: Choice, ok: bool) returns (s': State)
    requires Leads(c, fs, s) && ControlCan(c, s, choice) && Tolerates(c, s, Control(choice, ok), fs)
    ensures s' == ControlStep(c, s, choice, ok) && Leads(c, fs, s') && Sized(c, s')
  {
    ControlFrames(c, s, choice, ok);
    s' := Go(c, fs, s, Control(choice, ok));
  }

  // A step that only takes the control thread on.
  function At(s: State, pc: ControlPc): State { s.(ct := s.ct.(pc := pc)) }

  lemma {:induction false} CopyProcessed(c: Config, fs: set<Failure>, s: State, k: nat, why: Purpose)
    returns (s': State)
    requires Leads(c, fs, s) && Sized(c, s) && k <= Capacity(c.n)
    requires s.ct.pc == CCopyP(k, UpTo(s.bits.processed, k), why)
    ensures Leads(c, fs, s') && s' == At(s, CCopyW(0, UpTo(s.bits.processed, Capacity(c.n)), {}, why))
    decreases Capacity(c.n) - k
  {
    s' := GoControl(c, fs, s, Clear, true);
    if k < Capacity(c.n) {
      NextByte(s.bits.processed, k);
      assert s' == At(s, CCopyP(k + 1, UpTo(s.bits.processed, k + 1), why));
      s' := CopyProcessed(c, fs, s', k + 1, why);
    }
  }

  // Where a copied snapshot goes.
  function Taken(snap: Snap, why: Purpose): ControlPc {
    match why
    case First => CTable(snap)
    case Second(older) => CSaveNew(snap, older)
    case Final(tableSaved) => FSave(snap, tableSaved)
  }

  lemma {:induction false} CopyWritten(c: Config, fs: set<Failure>, s: State, k: nat, p: set<nat>, why: Purpose)
    returns (s': State)
    requires Leads(c, fs, s) && Sized(c, s) && k <= Capacity(c.n)
    requires s.ct.pc == CCopyW(k, p, UpTo(s.bits.written, k), why)
    ensures Leads(c, fs, s') && s' == At(s, Taken(Snap(p, UpTo(s.bits.written, Capacity(c.n))), why))
    decreases Capacity(c.n) - k
  {
    s' := GoControl(c, fs, s, Clear, true);
    if k < Capacity(c.n) {
      NextByte(s.bits.written, k);
      assert s' == At(s, CCopyW(k + 1, p, UpTo(s.bits.written, k + 1), why));
      s' := CopyWritten(c, fs, s', k + 1, p, why);
    }
  }

  // With the threads standing still a snapshot is the two bitmaps.
  // Copying all bytes of both bitmaps copies the bitmaps.
  lemma WholeBitmaps(c: Config, fs: set<Failure>, s: State)
    requires ValidConfig(c) && Comparable(c) && Leads(c, fs, s)
    ensures Sized(c, s) && UpTo(s.bits.processed, 0) == UpTo(s.bits.written, 0) == {}
    ensures UpTo(s.bits.processed, Capacity(c.n)) == s.bits.processed
    ensures UpTo(s.bits.written, Capacity(c.n)) == s.bits.written
  {
    Reached(c, fs, s);
    AllBytes(c, s.bits.processed);
    AllBytes(c, s.bits.written);
  }

  lemma CopyBitmaps(c: Config, fs: set<Failure>, s: State, why: Purpose) returns (s': State)
    requires ValidConfig(c) && Comparable(c) && Leads(c, fs, s) && s.ct.pc == CCopyP(0, {}, why)
    ensures Leads(c, fs, s') && Sized(c, s') && s' == At(s, Taken(s.bits, why))
  {
    hide Leads, UpTo;
    WholeBitmaps(c, fs, s);
    s' := CopyProcessed(c, fs, s, 0, why);
    s' := CopyWritten(c, fs, s', 0, s.bits.processed, why);
  }

  // A refresh up to the fsync.
  lemma BeginRefresh(c: Config, fs: set<Failure>, s: State) returns (s': State)
    requires ValidConfig(c) && Comparable(c) && Leads(c, fs, s) && Sized(c, s) && c.checkpoint && s.ct.pc.CIdle?
    ensures Leads(c, fs, s') && Sized(c, s')
    ensures s' == s.(ct := s.ct.(pc := CFsync(s.bits), pause := true), files := s'.files)
    ensures s'.files == s.files.(tableBad := s'.files.tableBad,
                                 tableFile := if c.hasher then Some(s.table) else s.files.tableFile)
  {
    s' := GoControl(c, fs, s, Refresh, true);
    s' := CopyBitmaps(c, fs, s', First);
    s' := GoControl(c, fs, s', Clear, true);
  }

  // The fsync, which may fail, and what it makes durable.
  lemma SyncData(c: Config, fs: set<Failure>, s: State, ok: bool) returns (s': State)
    requires Leads(c, fs, s) && Sized(c, s) && s.ct.pc.CFsync? && (!ok ==> SyncFails in fs)
    ensures Leads(c, fs, s') && Sized(c, s')
    ensures s' == s.(ct := s.ct.(pc := CCopyP(0, {}, Second(s.ct.pc.snap))), files := Synced(s.files, s.copy, ok))
  {
    s' := GoControl(c, fs, s, Clear, ok);
  }

  // A newer snapshot, and its save.
  lemma SaveNewer(c: Config, fs: set<Failure>, s: State, older: Snap) returns (s': State)
    requires ValidConfig(c) && Comparable(c) && Leads(c, fs, s) && s.ct.pc == CCopyP(0, {}, Second(older))
    ensures Leads(c, fs, s') && Sized(c, s') && s' == s.(ct := s.ct.(pc := CSaveOld(older)), files := s'.files)
    ensures s'.files.ckptFile == Some(s.bits) && s'.files.tableFile == s.files.tableFile
    ensures s'.files.disk == s.files.disk
  {
    s' := CopyBitmaps(c, fs, s, Second(older));
    s' := GoControl(c, fs, s', Clear, true);
  }

  // The save of the older one, and the end of the refresh.
  lemma SaveOlder(c: Config, fs: set<Failure>, s: State) returns (s': State)
    requires Leads(c, fs, s) && Sized(c, s) && s.ct.pc.CSaveOld?
    ensures Leads(c, fs, s') && Sized(c, s') && s' == s.(ct := s.ct.(pc := CIdle, pause := false), files := s'.files)
    ensures s'.files.ckptFile == Some(s.ct.pc.older)
    ensures s'.files.tableFile == s.files.tableFile && s'.files.disk == s.files.disk
  {
    s' := GoControl(c, fs, s, Clear, true);
    s' := GoControl(c, fs, s', Clear, true);
  }

  // A whole refresh.
  lemma RefreshAll(c: Config, fs: set<Failure>, s: State, sync: bool) returns (s': State)
    requires ValidConfig(c) && Comparable(c) && Leads(c, fs, s) && Sized(c, s) && c.checkpoint && s.ct.pc.CIdle?
    requires sync || SyncFails in fs
    ensures Leads(c, fs, s') && Sized(c, s') && s' == s.(ct := s.ct.(pause := false), files := s'.files)
    ensures s'.files.ckptFile == Some(s.bits) && (c.hasher ==> s'.files.tableFile == Some(s.table))
    ensures !sync ==> s'.files.disk == s.files.disk
  {
    s' := BeginRefresh(c, fs, s);
    s' := SyncData(c, fs, s', sync);
    s' := SaveNewer(c, fs, s', s.bits);
    s' := SaveOlder(c, fs, s');
  }

  lemma LoseTable(c: Config, fs: set<Failure>, s: State) returns (s': State)
    requires Leads(c, fs, s) && Sized(c, s) && s.ct.pc.CIdle? && AllTerminal(s) && LastTableLost in fs
    ensures Leads(c, fs, s') && Sized(c, s') && s' == s.(ct := s.ct.(pc := s'.ct.pc), files := s'.files)
    ensures s'.ct.pc == CCopyP(0, {}, Final(!c.hasher)) && s'.files.tableFile == s.files.tableFile
  {
    s' := GoControl(c, fs, s, Finish, true);
    s' := GoControl(c, fs, s', Clear, false);
    s' := GoControl(c, fs, s', Clear, true);
  }

  // The end of a session whose table cannot be saved any more.
  lemma EndWithoutTable(c: Config, fs: set<Failure>, s: State) returns (s': State)
    requires ValidConfig(c) && Comparable(c) && Leads(c, fs, s) && Sized(c, s) && c.checkpoint
    requires s.ct.pc.CIdle? && AllTerminal(s) && LastTableLost in fs
    ensures Leads(c, fs, s') && Sized(c, s') && s' == s.(ct := s.ct.(pc := s'.ct.pc), files := s'.files)
    ensures s'.ct.pc.CEnd?
    ensures s'.files.ckptFile == Some(s.bits) && s'.files.tableFile == s.files.tableFile
  {
    s' := LoseTable(c, fs, s);
    s' := CopyBitmaps(c, fs, s', Final(s'.ct.pc.why.tableSaved));
    s' := GoControl(c, fs, s', Clear, true);
  }

  // ---------------------------------------------------------------- restarts

  // A crash, and a session that starts again.
  lemma Restart(c: Config, fs: set<Failure>, s: State, torn: seq<Block>, machine: bool, readTable: bool, readBits: bool)
    returns (s': State)
    requires ValidConfig(c) && Comparable(c) && Leads(c, fs, s) && Sized(c, s)
    requires |torn| == c.n && forall i :: 0 <= i < c.n ==> |torn[i]| == |c.vol[i]|
    requires (s.ct.pc.CSaveOld? ==> SecondSaveLost in fs) && (c.hasher && !readTable ==> TableUnreadable in fs)
    ensures Leads(c, fs, s') && Sized(c, s') && Smooth(s') && s'.ct.pc.CIdle? && !s'.ct.pause
    ensures s' == Boot(c, Found(s, torn, machine), FilesFound(s, torn, machine), readTable, readBits)
  {
    Reached(c, fs, s);
    s' := Go(c, fs, s, Crash(torn, machine, readTable, readBits));
    Reached(c, fs, s');
  }

  // After a crash with a checkpoint that names block i the session starts again, leaves the block
  // alone, and ends in success.
  lemma RestartSkips(c: Config, fs: set<Failure>, s: State, torn: seq<Block>, machine: bool, i: nat) returns (s': State)
    requires ValidConfig(c) && Comparable(c) && Leads(c, fs, s) && Sized(c, s) && c.checkpoint && i < c.n
    requires |torn| == c.n && forall i :: 0 <= i < c.n ==> |torn[i]| == |c.vol[i]|
    requires s.ct.pc.CSaveOld? ==> SecondSaveLost in fs
    requires s.files.ckptFile.Some? && i in s.files.ckptFile.value.processed && (c.hasher ==> s.files.tableFile.Some?)
    ensures Leads(c, fs, s') && Succeeded(s') && |s'.copy| == |s'.table| == c.n
    ensures s'.copy[i] == Found(s, torn, machine)[i]
    ensures c.hasher ==> i < |s.files.tableFile.value| && s'.table[i] == s.files.tableFile.value[i]
  {
    var start := Restart(c, fs, s, torn, machine, true, true);
    assert start.hist.loc[i].Restored? && Delivery.Ended(c, start, i);
    s' := RunToEnd(c, fs, start);
  }
}
