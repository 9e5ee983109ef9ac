/** What stops the threads: an abort, a pause, and errors that nobody can undo. */
module Stopping {
  import opened Common
  import opened Pipeline
  import opened Frames
  import opened Runs
  import opened Stages
  import opened Durability
  import opened Session
  import opened Convergence
  import opened Totals
  import ControlThread
  import Handshake
  import W = WorkerSums

  // ---------------------------------------------------------------- what a step takes up

  lemma SameTotals(c: Config, k: Kind, loc: seq<Loc>, i: nat, to: Loc)
    requires i < |loc| && Weight(c, k, loc[i], i) == Weight(c, k, to, i)
    ensures Total(c, k, loc[i := to]) == Total(c, k, loc)
  {
    TotalMove(c, k, loc, i, to);
  }

  predicate ReaderTakes(s: State) { s.rd.pc.RFetch? && FirstFree(s.pool.alloc) < ALLOCATOR_BLOCKS }

  lemma ReaderTakesUp(c: Config, s: State, fail: bool)
    requires ReaderCan(c, s, fail) && Handshake.ReaderShut(c, s)
    requires s.rd.pc.RFetch? ==> s.hist.loc[s.rd.cur].Todo?
    requires s.rd.pc.RPush? ==> s.hist.loc[s.rd.cur].AtReader?
    ensures var loc := ReaderStep(c, s, fail).hist.loc;
      && Total(c, BlocksTaken, loc) == Total(c, BlocksTaken, s.hist.loc) + (if ReaderTakes(s) then 1 else 0)
      && (c.hasher ==> Total(c, BlocksPopped, loc) == Total(c, BlocksPopped, s.hist.loc))
      && Total(c, BlocksFetched, loc) == Total(c, BlocksFetched, s.hist.loc)
      && Total(c, BlocksLost, loc) == Total(c, BlocksLost, s.hist.loc)
  {
    var loc, i := s.hist.loc, s.rd.cur;
    if ReaderTakes(s) || s.rd.pc.RPush? {
      var to := if s.rd.pc.RFetch? then AtReader else if c.hasher then AtHashQueue else AtWriteQueue;
      assert ReaderStep(c, s, fail).hist.loc == loc[i := to];
      TotalMove(c, BlocksTaken, loc, i, to);
      if c.hasher { SameTotals(c, BlocksPopped, loc, i, to); }
      SameTotals(c, BlocksFetched, loc, i, to);
      SameTotals(c, BlocksLost, loc, i, to);
    } else {
      assert ReaderStep(c, s, fail).hist == s.hist;
    }
  }

  predicate WorkerTakes(s: State, j: nat) { j < |s.hs.ws| && s.hs.ws[j].WPop? && s.hq.items != [] }

  // Where a worker takes a block, if it moves one.
  lemma WorkerTakesTo(c: Config, s: State, j: nat)
    requires WorkerCan(c, s, j) && (s.hs.ws[j].WPush? ==> !s.wq.finished)
    ensures var loc := WorkerStep(c, s, j).hist.loc;
      if WorkerTakes(s, j) then loc == s.hist.loc[s.hq.items[0].index := AtWorker(j)]
      else if s.hs.ws[j].WFree? then loc == s.hist.loc[s.hs.ws[j].b.index := Dropped]
      else if s.hs.ws[j].WPush? then loc == s.hist.loc[s.hs.ws[j].b.index := AtWriteQueue]
      else loc == s.hist.loc
  {}

  lemma WorkerTakesUp(c: Config, s: State, j: nat)
    requires WorkerCan(c, s, j) && (s.hs.ws[j].WPush? ==> !s.wq.finished)
    requires WorkersAt(c, s.hist.loc, s.hs.ws) && QueueAt(c, s.hist.loc, s.hq.items, AtHashQueue)
    ensures var loc := WorkerStep(c, s, j).hist.loc;
      && Total(c, BlocksTaken, loc) == Total(c, BlocksTaken, s.hist.loc)
      && Total(c, BlocksPopped, loc) == Total(c, BlocksPopped, s.hist.loc) + (if WorkerTakes(s, j) then 1 else 0)
      && Total(c, BlocksFetched, loc) == Total(c, BlocksFetched, s.hist.loc)
      && Total(c, BlocksLost, loc) == Total(c, BlocksLost, s.hist.loc)
  {
    WorkerTakesTo(c, s, j);
    hide WorkerStep;
    var loc, loc' := s.hist.loc, WorkerStep(c, s, j).hist.loc;
    if WorkerTakes(s, j) || s.hs.ws[j].WFree? || s.hs.ws[j].WPush? {
      var i := if WorkerTakes(s, j) then s.hq.items[0].index else s.hs.ws[j].b.index;
      SameTotals(c, BlocksTaken, loc, i, loc'[i]);
      TotalMove(c, BlocksPopped, loc, i, loc'[i]);
      SameTotals(c, BlocksFetched, loc, i, loc'[i]);
      SameTotals(c, BlocksLost, loc, i, loc'[i]);
    }
  }

  predicate WriterTakes(s: State) { s.wr.pc.NPop? && s.wq.items != [] }

  lemma WriterTakesUp(c: Config, s: State, fail: bool, junk: Block)
    requires WriterCan(c, s) && WriterAt(c, s.hist.loc, s.wr) && QueueAt(c, s.hist.loc, s.wq.items, AtWriteQueue)
    ensures var loc := WriterStep(c, s, fail, junk).hist.loc;
      && Total(c, BlocksTaken, loc) == Total(c, BlocksTaken, s.hist.loc)
      && Total(c, BlocksPopped, loc) == Total(c, BlocksPopped, s.hist.loc)
      && Total(c, BlocksFetched, loc) == Total(c, BlocksFetched, s.hist.loc) + (if WriterTakes(s) then 1 else 0)
  {
    WriterTakesTo(c, s, fail, junk);
    hide WriterStep;
    var loc, loc' := s.hist.loc, WriterStep(c, s, fail, junk).hist.loc;
    if WriterTakes(s) || s.wr.pc.NGot? {
      var i := if WriterTakes(s) then s.wq.items[0].index else s.wr.pc.b.index;
      SameTotals(c, BlocksTaken, loc, i, loc'[i]);
      SameTotals(c, BlocksPopped, loc, i, loc'[i]);
      TotalMove(c, BlocksFetched, loc, i, loc'[i]);
    }
  }

  // ---------------------------------------------------------------- aborted threads

  // Past the look at the flag, and on the way to taking up a block.
  predicate ReaderPast(rd: ReaderState) { rd.pc.RPause? || rd.pc.RSkip? || rd.pc.RFetch? }

  // The blocks a thread has taken up, and those it may take up before it looks at its flag again.
  function ReaderReach(c: Config, s: State): nat {
    Total(c, BlocksTaken, s.hist.loc) + (if ReaderPast(s.rd) then 1 else 0)
  }

  function WorkersReach(c: Config, s: State): nat {
    Total(c, BlocksPopped, s.hist.loc) + W.Sum(c, W.Popping, s.hs.ws)
  }

  function WriterReach(c: Config, s: State): nat {
    Total(c, BlocksFetched, s.hist.loc) + (if s.wr.pc.NPop? then 1 else 0)
  }

  // No thread that has been told to stop reaches further.
  ghost predicate NoFurther(c: Config, s: State, s': State) {
    && (s.ct.rabort ==> s'.ct.rabort && ReaderReach(c, s') <= ReaderReach(c, s))
    && (s.ct.habort && c.hasher ==> s'.ct.habort && WorkersReach(c, s') <= WorkersReach(c, s))
    && (s.ct.nabort ==> s'.ct.nabort && WriterReach(c, s') <= WriterReach(c, s))
  }

  lemma ReaderGoesNoFurther(c: Config, s: State, fail: bool)
    requires ReaderCan(c, s, fail) && Handshake.ReaderShut(c, s) && ReaderAt(c, s.hist.loc, s.rd, s.hist.restored)
    ensures NoFurther(c, s, ReaderStep(c, s, fail))
  {
    ReaderTakesUp(c, s, fail);
    ReaderEffect(c, s, fail);
  }

  lemma WorkersGoNoFurther(c: Config, s: State, j: nat)
    requires WorkerCan(c, s, j) && (s.hs.ws[j].WPush? ==> !s.wq.finished)
    requires WorkersAt(c, s.hist.loc, s.hs.ws) && QueueAt(c, s.hist.loc, s.hq.items, AtHashQueue)
    ensures NoFurther(c, s, WorkerStep(c, s, j))
  {
    WorkerTakesUp(c, s, j);
    var s' := WorkerStep(c, s, j);
    assert s'.hs.ws == s.hs.ws[j := s'.hs.ws[j]] && s'.rd == s.rd && s'.wr == s.wr && s'.ct == s.ct;
    W.SumUpdate(c, W.Popping, s.hs.ws, j, s'.hs.ws[j]);
  }

  lemma WriterGoesNoFurther(c: Config, s: State, fail: bool, junk: Block)
    requires WriterCan(c, s) && WriterAt(c, s.hist.loc, s.wr) && QueueAt(c, s.hist.loc, s.wq.items, AtWriteQueue)
    ensures NoFurther(c, s, WriterStep(c, s, fail, junk))
  {
    WriterTakesUp(c, s, fail, junk);
    WriterLeaves(c, s, fail, junk);
  }

  lemma ControlGoesNoFurther(c: Config, s: State, choice: Choice, ok: bool)
    requires ControlCan(c, s, choice)
    ensures NoFurther(c, s, ControlStep(c, s, choice, ok))
  {
    ControlFrames(c, s, choice, ok);
  }

  lemma StepGoesNoFurther(c: Config, s: State, a: Action)
    requires ValidConfig(c) && Core(c, s) && Enabled(c, s, a) && !a.Crash?
    ensures NoFurther(c, s, Next(c, s, a))
  {
    hide NoFurther;
    match a
    case Reader(fail) => ReaderGoesNoFurther(c, s, fail);
    case Worker(j) => WorkersGoNoFurther(c, s, j);
    case Writer(fail, junk) => WriterGoesNoFurther(c, s, fail, junk);
    case Control(choice, ok) => ControlGoesNoFurther(c, s, choice, ok);
  }

  lemma RunGoesNoFurther(c: Config, s: State, steps: seq<Action>, s': State)
    requires ValidConfig(c) && Core(c, s) && Reaches(c, s, steps, s') && NoCrash(steps)
    ensures NoFurther(c, s, s')
  {
    hide Core;
    var keep := (t: State) => Core(c, t) && NoFurther(c, s, t);
    forall t: State, a: Action | keep(t) && !a.Crash? && Enabled(c, t, a) ensures keep(Next(c, t, a)) {
      StepKeepsCore(c, t, a);
      StepGoesNoFurther(c, t, a);
    }
    Induct(c, keep, (a: Action) => !a.Crash?, s, steps, s');
  }

  // Once its flag is up, the reader takes up at most the one block it was past the look at the flag with,
  // each worker at most one, and the writer at most one, whatever else happens in the run.
  lemma AbortStops(c: Config, before: seq<Action>, s: State, after: seq<Action>, s': State)
    requires ValidConfig(c) && Reaches(c, Init(c), before, s) && Reaches(c, s, after, s') && NoCrash(after)
    ensures s.ct.rabort ==> Total(c, BlocksTaken, s'.hist.loc) <=
                            Total(c, BlocksTaken, s.hist.loc) + (if ReaderPast(s.rd) then 1 else 0)
    ensures s.ct.habort && c.hasher ==> Total(c, BlocksPopped, s'.hist.loc) <=
                                        Total(c, BlocksPopped, s.hist.loc) + W.Sum(c, W.Popping, s.hs.ws)
    ensures s.ct.nabort ==> Total(c, BlocksFetched, s'.hist.loc) <=
                            Total(c, BlocksFetched, s.hist.loc) + (if s.wr.pc.NPop? then 1 else 0)
  {
    ReachableCore(c, before, s);
    RunGoesNoFurther(c, s, after, s');
  }

  // ---------------------------------------------------------------- raising the flags

  // How far an abort has come, and why a session ends unfinished.
  predicate AbortRaised(s: State) {
    && (s.ct.pc.CAbort? ==> s.ct.pc.k <= 2 && (s.ct.pc.k > 0 ==> s.ct.rabort) && (s.ct.pc.k > 1 ==> s.ct.habort))
    && (s.ct.pc.CEnd? && !s.ct.pc.completed ==>
          (s.ct.rabort && s.ct.habort && s.ct.nabort) || s.rd.status.Failed? || s.wr.status.Failed?)
    && (s.ct.rabort ==> !s.rd.status.Running?)
    && (s.ct.habort ==> !s.hs.status.Running?)
    && (s.ct.nabort ==> !s.wr.status.Running?)
  }

  // And the pause flag is up exactly while a refresh is under way.
  predicate FlagsRaised(s: State) { AbortRaised(s) && (s.ct.pause <==> ControlThread.Refreshing(s.ct.pc)) }

  lemma ReaderKeepsRaised(c: Config, s: State, fail: bool)
    requires FlagsRaised(s) && Handshake.ReaderShut(c, s) && ReaderCan(c, s, fail)
    ensures FlagsRaised(ReaderStep(c, s, fail))
  {}

  lemma WorkerKeepsRaised(c: Config, s: State, j: nat)
    requires FlagsRaised(s) && WorkerCan(c, s, j)
    ensures FlagsRaised(WorkerStep(c, s, j))
  {}

  lemma WriterKeepsRaised(c: Config, s: State, fail: bool, junk: Block)
    requires FlagsRaised(s) && Handshake.WriterShut(s) && WriterCan(c, s)
    ensures FlagsRaised(WriterStep(c, s, fail, junk))
  {}

  lemma ControlKeepsAbortRaised(c: Config, s: State, choice: Choice, ok: bool)
    requires AbortRaised(s) && ControlCan(c, s, choice) && !s.hs.status.Failed?
    ensures AbortRaised(ControlStep(c, s, choice, ok))
  {
    hide NextFiles;
  }

  lemma ControlKeepsRaised(c: Config, s: State, choice: Choice, ok: bool)
    requires FlagsRaised(s) && ControlCan(c, s, choice) && !s.hs.status.Failed?
    ensures FlagsRaised(ControlStep(c, s, choice, ok))
  {
    ControlKeepsAbortRaised(c, s, choice, ok);
    hide AbortRaised, NextFiles;
  }

  lemma StepKeepsRaised(c: Config, s: State, a: Action)
    requires FlagsRaised(s) && ValidConfig(c) && Core(c, s) && Enabled(c, s, a)
    ensures FlagsRaised(Next(c, s, a))
  {
    match a
    case Reader(fail) => ReaderKeepsRaised(c, s, fail);
    case Worker(j) => WorkerKeepsRaised(c, s, j);
    case Writer(fail, junk) => WriterKeepsRaised(c, s, fail, junk);
    case Control(choice, ok) => ControlKeepsRaised(c, s, choice, ok);
    case Crash(_, _, _, _) =>
  }

  lemma ReachableRaised(c: Config, steps: seq<Action>, s: State)
    requires ValidConfig(c) && Reaches(c, Init(c), steps, s)
    ensures Core(c, s) && FlagsRaised(s)
  {
    hide Core;
    var keep := (t: State) => Core(c, t) && FlagsRaised(t);
    ReachableCore(c, [], Init(c));
    forall t: State, a: Action | keep(t) && Enabled(c, t, a) ensures keep(Next(c, t, a)) {
      StepKeepsCore(c, t, a);
      StepKeepsRaised(c, t, a);
    }
    Induct(c, keep, (a: Action) => true, Init(c), steps, s);
  }

  // The session's abort reaches the reader, the hasher and the writer; a session that ends unfinished has been
  // aborted all the way or has a thread that failed.
  lemma AbortReachesAll(c: Config, steps: seq<Action>, s: State)
    requires ValidConfig(c) && Reaches(c, Init(c), steps, s)
    ensures s.ct.pc == CAbort(2) ==>
              forall choice, ok :: ControlCan(c, s, choice) ==>
                var ct := ControlStep(c, s, choice, ok).ct; ct.rabort && ct.habort && ct.nabort
    ensures s.ct.pc.CEnd? && !s.ct.pc.completed ==>
              (s.ct.rabort && s.ct.habort && s.ct.nabort) || s.rd.status.Failed? || s.wr.status.Failed?
    ensures s.ct.rabort || s.ct.habort || s.ct.nabort ==> s.ct.pc.CAbort? || (s.ct.pc.CEnd? && !s.ct.pc.completed)
    ensures s.ct.rabort && s.ct.habort && s.ct.nabort ==>
              !s.rd.status.Running? && !s.hs.status.Running? && !s.wr.status.Running?
  {
    ReachableRaised(c, steps, s);
  }

  // Where the control thread may go while it watches the session.
  ghost predicate MayGo(c: Config, s: State, pc: ControlPc) {
    exists choice, ok :: ControlCan(c, s, choice) && ControlStep(c, s, choice, ok).ct.pc == pc
  }

  lemma MayGiveUp(c: Config, s: State)
    requires Sized(c, s) && s.ct.pc.CIdle? && !s.hs.status.Failed?
    ensures MayGo(c, s, CEnd(false, false)) <==> s.rd.status.Failed? || s.wr.status.Failed?
  {
    if s.rd.status.Failed? || s.wr.status.Failed? {
      assert ControlCan(c, s, GiveUp) && ControlStep(c, s, GiveUp, true).ct.pc == CEnd(false, false);
    }
  }

  lemma MayFinish(c: Config, s: State)
    requires Sized(c, s) && s.ct.pc.CIdle?
    ensures MayGo(c, s, FTable) <==> AllTerminal(s)
  {
    if AllTerminal(s) { assert ControlCan(c, s, Finish) && ControlStep(c, s, Finish, true).ct.pc == FTable; }
  }

  // It may end the session unfinished exactly if a thread has failed, and go on to save its last state
  // exactly if all threads have ended.
  lemma IdleChoices(c: Config, steps: seq<Action>, s: State)
    requires ValidConfig(c) && Reaches(c, Init(c), steps, s) && s.ct.pc.CIdle?
    ensures MayGo(c, s, CEnd(false, false)) <==> s.rd.status.Failed? || s.wr.status.Failed?
    ensures MayGo(c, s, FTable) <==> AllTerminal(s)
  {
    ReachableCore(c, steps, s);
    hide MayGo;
    MayGiveUp(c, s);
    MayFinish(c, s);
  }

  // ---------------------------------------------------------------- paused

  predicate PausePast(rd: ReaderState) { rd.pc.RSkip? || rd.pc.RFetch? }

  function PauseReach(c: Config, s: State): nat {
    Total(c, BlocksTaken, s.hist.loc) + (if PausePast(s.rd) then 1 else 0)
  }

  // Nobody but the reader takes blocks up, or moves the reader.
  lemma OnlyReaderTakesUp(c: Config, s: State, a: Action)
    requires ValidConfig(c) && Core(c, s) && Enabled(c, s, a) && !a.Crash? && !a.Reader?
    ensures var s' := Next(c, s, a);
      && Total(c, BlocksTaken, s'.hist.loc) == Total(c, BlocksTaken, s.hist.loc)
      && s'.rd == s.rd.(status := s'.rd.status) && StatusKept(s.rd.status, s'.rd.status)
  {
    match a
    case Worker(j) =>
      WorkerTakesUp(c, s, j);
      assert WorkerStep(c, s, j).rd == s.rd;
    case Writer(fail, junk) =>
      WriterTakesUp(c, s, fail, junk);
      WriterLeaves(c, s, fail, junk);
    case Control(choice, ok) => ControlFrames(c, s, choice, ok);
  }

  lemma PausedReaderStep(c: Config, s: State, fail: bool)
    requires ReaderCan(c, s, fail) && Handshake.ReaderShut(c, s) && ReaderAt(c, s.hist.loc, s.rd, s.hist.restored)
    requires s.ct.pause
    ensures PauseReach(c, ReaderStep(c, s, fail)) <= PauseReach(c, s)
  {
    ReaderTakesUp(c, s, fail);
  }

  lemma PausedStep(c: Config, s: State, a: Action)
    requires ValidConfig(c) && Core(c, s) && Enabled(c, s, a) && !a.Crash? && s.ct.pause
    ensures PauseReach(c, Next(c, s, a)) <= PauseReach(c, s)
  {
    if a.Reader? {
      PausedReaderStep(c, s, a.fail);
    } else {
      OnlyReaderTakesUp(c, s, a);
    }
  }

  // While a refresh lasts the reader takes up at most the block it was past the pause loop with.
  lemma RefreshHoldsReader(c: Config, before: seq<Action>, s: State, during: seq<Action>, s': State)
    requires ValidConfig(c) && Reaches(c, Init(c), before, s)
    requires Through(c, (t: State) => ControlThread.Refreshing(t.ct.pc), s, during, s')
    ensures Total(c, BlocksTaken, s'.hist.loc) <=
            Total(c, BlocksTaken, s.hist.loc) + (if PausePast(s.rd) then 1 else 0)
  {
    hide Core;
    ReachableRaised(c, before, s);
    var keep := (t: State) => Core(c, t) && FlagsRaised(t) && PauseReach(c, t) <= PauseReach(c, s);
    var stays := (t: State) => ControlThread.Refreshing(t.ct.pc);
    forall t: State, a: Action | keep(t) && stays(t) && Enabled(c, t, a) && stays(Next(c, t, a))
      ensures keep(Next(c, t, a))
    {
      assert !a.Crash?;
      StepKeepsCore(c, t, a);
      StepKeepsRaised(c, t, a);
      PausedStep(c, t, a);
    }
    InductThrough(c, keep, stays, s, during, s');
  }

  // ---------------------------------------------------------------- errors

  // A table or a newer snapshot that cannot be saved.
  predicate SaveFails(c: Config, pc: ControlPc) { (pc.CTable? && c.hasher) || pc.CSaveNew? }

  predicate SameSaves(f: Files, f': Files) { f'.ckptFile == f.ckptFile && f'.tableFile == f.tableFile }

  lemma ResumingStep(c: Config, s: State, a: Action)
    requires Enabled(c, s, a) && !a.Crash? && s.ct.pc.CResume? && ControlThread.Refreshing(Next(c, s, a).ct.pc)
    ensures Next(c, s, a).ct.pc.CResume? && SameSaves(s.files, Next(c, s, a).files)
  {
    match a
    case Reader(fail) => ReaderEffect(c, s, fail);
    case Worker(j) => assert WorkerStep(c, s, j).ct == s.ct && WorkerStep(c, s, j).files == s.files;
    case Writer(fail, junk) =>
      WriterLeaves(c, s, fail, junk);
      WriterTaints(c, s, fail, junk);
    case Control(_, _) =>
  }

  // Such a failure ends the refresh: until its end neither the table nor the checkpoint changes any more.
  lemma RefreshStopsOnError(c: Config, s: State, choice: Choice, during: seq<Action>, s': State)
    requires ControlCan(c, s, choice) && SaveFails(c, s.ct.pc)
    requires Through(c, (t: State) => ControlThread.Refreshing(t.ct.pc), ControlStep(c, s, choice, false), during, s')
    ensures SameSaves(s.files, s'.files)
  {
    var keep := (t: State) => t.ct.pc.CResume? && SameSaves(s.files, t.files);
    var stays := (t: State) => ControlThread.Refreshing(t.ct.pc);
    forall t: State, a: Action | keep(t) && stays(t) && Enabled(c, t, a) && stays(Next(c, t, a))
      ensures keep(Next(c, t, a))
    {
      assert !a.Crash?;
      ResumingStep(c, t, a);
    }
    InductThrough(c, keep, stays, ControlStep(c, s, choice, false), during, s');
  }

  // A read that fails, or a wait for a buffer that times out.
  predicate ReadFails(s: State) {
    s.rd.pc.RRead? || (s.rd.pc.RFetch? && FirstFree(s.pool.alloc) == ALLOCATOR_BLOCKS)
  }

  lemma FailedReaderStep(c: Config, s: State, a: Action)
    requires ValidConfig(c) && Core(c, s) && Enabled(c, s, a) && !a.Crash? && s.rd.status.Failed?
    ensures var s' := Next(c, s, a);
      s'.rd.status.Failed? && Total(c, BlocksTaken, s'.hist.loc) == Total(c, BlocksTaken, s.hist.loc)
  {
    if a.Reader? {
      ReaderTakesUp(c, s, a.fail);
    } else {
      OnlyReaderTakesUp(c, s, a);
    }
  }

  // Either fails the reader for the rest of the run: no block is taken up any more, and the session does
  // not succeed.
  lemma ReadErrorIsFinal(c: Config, before: seq<Action>, s: State, after: seq<Action>, s': State)
    requires ValidConfig(c) && Reaches(c, Init(c), before, s) && ReadFails(s) && ReaderCan(c, s, true)
    requires Reaches(c, ReaderStep(c, s, true), after, s') && NoCrash(after)
    ensures s'.rd.status.Failed? && !Succeeded(s')
    ensures Total(c, BlocksTaken, s'.hist.loc) == Total(c, BlocksTaken, s.hist.loc)
  {
    ReachableCore(c, before, s);
    StepKeepsCore(c, s, Reader(true));
    ReaderTakesUp(c, s, true);
    hide Core;
    var keep := (t: State) =>
      Core(c, t) && t.rd.status.Failed? && Total(c, BlocksTaken, t.hist.loc) == Total(c, BlocksTaken, s.hist.loc);
    forall t: State, a: Action | keep(t) && !a.Crash? && Enabled(c, t, a) ensures keep(Next(c, t, a)) {
      StepKeepsCore(c, t, a);
      FailedReaderStep(c, t, a);
    }
    Induct(c, keep, (a: Action) => !a.Crash?, ReaderStep(c, s, true), after, s');
  }

  // Blocks not written so far.
  ghost predicate WritesNoMore(s: State, s': State) {
    && |s'.hist.loc| == |s.hist.loc|
    && forall i :: 0 <= i < |s.hist.loc| && s'.hist.loc[i].Written? ==> s.hist.loc[i].Written?
  }

  lemma FailedWriterWritesNoMore(c: Config, s: State, fail: bool, junk: Block)
    requires WriterCan(c, s) && HasFailed(s.wr) && WriterAt(c, s.hist.loc, s.wr)
    ensures var s' := WriterStep(c, s, fail, junk); HasFailed(s'.wr) && WritesNoMore(s, s')
  {
    WriterTakesTo(c, s, fail, junk);
  }

  lemma WorkersWriteNothing(c: Config, s: State, j: nat)
    requires WorkerCan(c, s, j) && (s.hs.ws[j].WPush? ==> !s.wq.finished)
    ensures var s' := WorkerStep(c, s, j); s'.wr == s.wr && WritesNoMore(s, s')
  {
    WorkerTakesTo(c, s, j);
  }

  lemma OthersWriteNothing(c: Config, s: State, a: Action)
    requires Enabled(c, s, a) && (a.Reader? || a.Control?) && |s.hist.loc| == c.n
    ensures Next(c, s, a).wr == s.wr.(status := Next(c, s, a).wr.status) && WritesNoMore(s, Next(c, s, a))
  {
    match a
    case Reader(fail) => ReaderEffect(c, s, fail);
    case Control(choice, ok) => ControlFrames(c, s, choice, ok);
  }

  lemma FailedWriterStep(c: Config, s: State, a: Action)
    requires ValidConfig(c) && Core(c, s) && Enabled(c, s, a) && !a.Crash? && HasFailed(s.wr)
    ensures HasFailed(Next(c, s, a).wr) && WritesNoMore(s, Next(c, s, a))
  {
    match a
    case Worker(j) => WorkersWriteNothing(c, s, j);
    case Writer(fail, junk) => FailedWriterWritesNoMore(c, s, fail, junk);
    case _ => OthersWriteNothing(c, s, a);
  }

  lemma FailedNeverSucceeds(c: Config, s: State, steps: seq<Action>, s': State)
    requires ValidConfig(c) && Core(c, s) && HasFailed(s.wr) && Reaches(c, s, steps, s') && NoCrash(steps)
    ensures Core(c, s') && HasFailed(s'.wr) && WritesNoMore(s, s')
  {
    hide Core;
    var keep := (t: State) => Core(c, t) && HasFailed(t.wr) && WritesNoMore(s, t);
    forall t: State, a: Action | keep(t) && !a.Crash? && Enabled(c, t, a) ensures keep(Next(c, t, a)) {
      StepKeepsCore(c, t, a);
      FailedWriterStep(c, t, a);
    }
    Induct(c, keep, (a: Action) => !a.Crash?, s, steps, s');
  }

  // A Write that fails lets nothing more be written in the run, and the session does not succeed.
  lemma WriteErrorIsFinal(c: Config, before: seq<Action>, s: State, junk: Block, after: seq<Action>, s': State)
    requires ValidConfig(c) && Reaches(c, Init(c), before, s) && Enabled(c, s, Writer(true, junk))
    requires s.wr.pc.NGot? && !s.wr.failed && NeedToWrite(c.skipEmpty, s.pool.buf[s.wr.pc.b.slot])
    requires Reaches(c, WriterStep(c, s, true, junk), after, s') && NoCrash(after)
    ensures HasFailed(s'.wr) && !Succeeded(s') && WritesNoMore(WriterStep(c, s, true, junk), s')
  {
    var s0 := WriterStep(c, s, true, junk);
    ReachableCore(c, before, s);
    StepKeepsCore(c, s, Writer(true, junk));
    FailedNeverSucceeds(c, s0, after, s');
  }

  // The writer's count: the block whose Write has failed, and those lost since.
  predicate FailuresCounted(c: Config, s: State) {
    s.wr.fails == Total(c, BlocksLost, s.hist.loc) + (if s.wr.failed then 1 else 0)
  }

  lemma WriterCountsFailures(c: Config, s: State, fail: bool, junk: Block)
    requires WriterCan(c, s) && WriterAt(c, s.hist.loc, s.wr) && QueueAt(c, s.hist.loc, s.wq.items, AtWriteQueue)
    requires FailuresCounted(c, s)
    ensures FailuresCounted(c, WriterStep(c, s, fail, junk))
  {
    WriterTakesTo(c, s, fail, junk);
    var loc, loc' := s.hist.loc, WriterStep(c, s, fail, junk).hist.loc;
    if WriterTakes(s) || s.wr.pc.NGot? {
      var i := if WriterTakes(s) then s.wq.items[0].index else s.wr.pc.b.index;
      TotalMove(c, BlocksLost, loc, i, loc'[i]);
    }
  }

  lemma ReaderCountsFailures(c: Config, s: State, fail: bool)
    requires ReaderCan(c, s, fail) && Handshake.ReaderShut(c, s) && ReaderAt(c, s.hist.loc, s.rd, s.hist.restored)
    requires FailuresCounted(c, s)
    ensures FailuresCounted(c, ReaderStep(c, s, fail))
  {
    ReaderTakesUp(c, s, fail);
    ReaderEffect(c, s, fail);
  }

  lemma WorkerCountsFailures(c: Config, s: State, j: nat)
    requires WorkerCan(c, s, j) && (s.hs.ws[j].WPush? ==> !s.wq.finished)
    requires WorkersAt(c, s.hist.loc, s.hs.ws) && QueueAt(c, s.hist.loc, s.hq.items, AtHashQueue)
    requires FailuresCounted(c, s)
    ensures FailuresCounted(c, WorkerStep(c, s, j))
  {
    WorkerTakesUp(c, s, j);
    assert WorkerStep(c, s, j).wr == s.wr;
  }

  lemma ControlCountsFailures(c: Config, s: State, choice: Choice, ok: bool)
    requires ControlCan(c, s, choice) && FailuresCounted(c, s)
    ensures FailuresCounted(c, ControlStep(c, s, choice, ok))
  {
    ControlFrames(c, s, choice, ok);
  }

  lemma BootCountsFailures(c: Config, target: seq<Block>, f: Files, readTable: bool, readBits: bool)
    ensures FailuresCounted(c, Boot(c, target, f, readTable, readBits))
  {
    TotalZero(c, BlocksLost, Boot(c, target, f, readTable, readBits).hist.loc);
  }

  lemma StepCountsFailures(c: Config, s: State, a: Action)
    requires ValidConfig(c) && Core(c, s) && Enabled(c, s, a) && FailuresCounted(c, s)
    ensures FailuresCounted(c, Next(c, s, a))
  {
    hide FailuresCounted;
    match a
    case Reader(fail) => ReaderCountsFailures(c, s, fail);
    case Worker(j) => WorkerCountsFailures(c, s, j);
    case Writer(fail, junk) => WriterCountsFailures(c, s, fail, junk);
    case Control(choice, ok) => ControlCountsFailures(c, s, choice, ok);
    case Crash(torn, machine, readTable, readBits) =>
      BootCountsFailures(c, Found(s, torn, machine), FilesFound(s, torn, machine), readTable, readBits);
  }

  // In every run the count of failures is that of the blocks lost and of the block that failed first.
  lemma FailuresAreCounted(c: Config, steps: seq<Action>, s: State)
    requires ValidConfig(c) && Reaches(c, Init(c), steps, s)
    ensures FailuresCounted(c, s)
  {
    hide Core, FailuresCounted;
    ReachableCore(c, [], Init(c));
    BootCountsFailures(c, c.base, Files(c.base, None, None, false, false, false), false, false);
    var keep := (t: State) => Core(c, t) && FailuresCounted(c, t);
    forall t: State, a: Action | keep(t) && Enabled(c, t, a) ensures keep(Next(c, t, a)) {
      StepKeepsCore(c, t, a);
      StepCountsFailures(c, t, a);
    }
    Induct(c, keep, (a: Action) => true, Init(c), steps, s);
  }
}
