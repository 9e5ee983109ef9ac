/** Every run ends: a bound on the steps of the threads, and no deadlock before the end. */
module Progress {
  import opened Common
  import opened Pipeline
  import opened Frames
  import opened Stages
  import opened Durability
  import opened Session
  import Handshake
  import Holders
  import Bounds
  import ControlThread
  import T = Totals
  import W = WorkerSums

  function ReaderLeft(c: Config, rd: ReaderState): nat {
    10 * (if rd.cur < c.n then c.n - rd.cur else 0) +
    match rd.pc
    case RCheck => 8 case RPause => 7 case RSkip => 6 case RFetch => 5 case RRead(_) => 4
    case RPush(_) => 3 case RCount => 2 case RFin => 1 case RDone => 0
  }

  function WriterLeft(wr: WriterState): nat {
    match wr.pc
    case NGot(_) => 9 case NFail(_) => 9 case NSetW(_) => 8 case NLoad(_) => 7 case NStore(_, _) => 6
    case NFree(_) => 5 case NCount(_) => 4 case NTop => 3 case NPop => 2 case NFinal => 1 case NDone => 0
  }

  // An upper bound on the steps the threads can still take in this run.
  function StepsLeft(c: Config, s: State): nat {
    T.Total(c, T.StepsLeft, s.hist.loc) + ReaderLeft(c, s.rd) + W.Sum(c, W.StepsLeft, s.hs.ws) + WriterLeft(s.wr)
  }

  predicate ThreadStep(a: Action) { a.Reader? || a.Worker? || a.Writer? }

  // The reader looking at a raised pause flag only goes round its loop.
  predicate Spins(s: State, a: Action) { a.Reader? && s.rd.pc.RPause? && s.ct.pause }

  lemma ReaderDecreases(c: Config, s: State, fail: bool)
    requires ReaderCan(c, s, fail) && !(s.rd.pc.RPause? && s.ct.pause)
    requires s.rd.pc.RFetch? ==> s.hist.loc[s.rd.cur].Todo?
    requires s.rd.pc.RPush? ==> s.hist.loc[s.rd.cur].AtReader?
    requires s.rd.pc.RCount? ==> s.rd.cur < c.n
    ensures StepsLeft(c, ReaderStep(c, s, fail)) < StepsLeft(c, s)
  {
    var s' := ReaderStep(c, s, fail);
    assert s'.hs == s.hs && s'.wr == s.wr;
    if s'.hist.loc != s.hist.loc {
      T.TotalMove(c, T.StepsLeft, s.hist.loc, s.rd.cur, s'.hist.loc[s.rd.cur]);
    }
  }

  lemma WorkerMovesBlock(c: Config, s: State, j: nat, i: nat)
    requires WorkerCan(c, s, j) && i < c.n
    requires if s.hs.ws[j].WPop? then s.hq.items != [] && i == s.hq.items[0].index && s.hist.loc[i].AtHashQueue?
             else (s.hs.ws[j].WFree? || s.hs.ws[j].WPush?) && i == s.hs.ws[j].b.index && s.hist.loc[i].AtWorker?
    ensures StepsLeft(c, WorkerStep(c, s, j)) < StepsLeft(c, s)
  {
    var s' := WorkerStep(c, s, j);
    var w' := s'.hs.ws[j];
    assert s'.hs.ws == s.hs.ws[j := w'] && s'.rd == s.rd && s'.wr == s.wr;
    assert s'.hist.loc == s.hist.loc[i := s'.hist.loc[i]];
    W.SumUpdate(c, W.StepsLeft, s.hs.ws, j, w');
    T.TotalMove(c, T.StepsLeft, s.hist.loc, i, s'.hist.loc[i]);
  }

  lemma WorkerDecreases(c: Config, s: State, j: nat)
    requires WorkerCan(c, s, j)
    requires s.hs.ws[j].WPop? && s.hq.items != [] ==> s.hist.loc[s.hq.items[0].index].AtHashQueue?
    requires s.hs.ws[j].WFree? || s.hs.ws[j].WPush? ==> s.hist.loc[s.hs.ws[j].b.index].AtWorker?
    ensures StepsLeft(c, WorkerStep(c, s, j)) < StepsLeft(c, s)
  {
    if s.hs.ws[j].WPop? && s.hq.items != [] {
      WorkerMovesBlock(c, s, j, s.hq.items[0].index);
    } else if s.hs.ws[j].WFree? || s.hs.ws[j].WPush? {
      WorkerMovesBlock(c, s, j, s.hs.ws[j].b.index);
    } else {
      var s' := WorkerStep(c, s, j);
      assert s'.hs.ws == s.hs.ws[j := s'.hs.ws[j]] && s'.rd == s.rd && s'.wr == s.wr;
      assert s'.hist.loc == s.hist.loc;
      W.SumUpdate(c, W.StepsLeft, s.hs.ws, j, s'.hs.ws[j]);
    }
  }

  lemma WriterDecreases(c: Config, s: State, fail: bool, junk: Block)
    requires WriterCan(c, s)
    requires s.wr.pc.NPop? && s.wq.items != [] ==> s.hist.loc[s.wq.items[0].index].AtWriteQueue?
    requires s.wr.pc.NGot? ==> s.hist.loc[s.wr.pc.b.index].AtWriter?
    ensures StepsLeft(c, WriterStep(c, s, fail, junk)) < StepsLeft(c, s)
  {
    var s' := WriterStep(c, s, fail, junk);
    assert s'.hs == s.hs && s'.rd == s.rd;
    match s.wr.pc {
      case NPop =>
        if s.wq.items != [] { T.TotalMove(c, T.StepsLeft, s.hist.loc, s.wq.items[0].index, AtWriter); }
      case NGot(b) => T.TotalMove(c, T.StepsLeft, s.hist.loc, b.index, s'.hist.loc[b.index]);
      case _ => assert s'.hist.loc == s.hist.loc;
    }
  }

  // Every step of a thread uses up some of what is left, except that a turn of the pause loop
  // gives one step back; the control thread adds nothing.
  lemma StepDecreases(c: Config, s: State, a: Action)
    requires Stages.Inv(c, s) && Enabled(c, s, a) && !a.Crash?
    ensures ThreadStep(a) && !Spins(s, a) ==> StepsLeft(c, Next(c, s, a)) < StepsLeft(c, s)
    ensures Spins(s, a) ==> StepsLeft(c, Next(c, s, a)) == StepsLeft(c, s) + 1
    ensures a.Control? ==> StepsLeft(c, Next(c, s, a)) == StepsLeft(c, s)
  {
    hide WorkerStep, WriterStep, ControlStep;
    match a
    case Reader(fail) => if !Spins(s, a) { ReaderDecreases(c, s, fail); }
    case Worker(j) => WorkerDecreases(c, s, j);
    case Writer(fail, junk) => WriterDecreases(c, s, fail, junk);
    case Control(choice, ok) => ControlFrames(c, s, choice, ok);
  }

  // A run without crash: how many of its steps moved a thread on, and how many looked at a
  // raised pause flag.
  ghost predicate Works(c: Config, s: State, steps: seq<Action>, s': State, moved: nat, turns: nat)
    decreases |steps|
  {
    var last := |steps| - 1;
    if steps == [] then s == s' && moved == 0 && turns == 0
    else if last == 0 then
      var a := steps[0];
      && !a.Crash? && Enabled(c, s, a) && Next(c, s, a) == s'
      && moved == (if ThreadStep(a) && !Spins(s, a) then 1 else 0) && turns == (if Spins(s, a) then 1 else 0)
    else
      exists mid, m: nat, t: nat ::
        && m <= moved && t <= turns
        && Works(c, s, steps[..last], mid, m, t) && Works(c, mid, steps[last..], s', moved - m, turns - t)
  }

  lemma WorkStep(c: Config, s: State, a: Action)
    requires ValidConfig(c) && Session.Core(c, s) && Enabled(c, s, a) && !a.Crash?
    ensures var s' := Next(c, s, a);
      && Session.Core(c, s')
      && (if ThreadStep(a) && !Spins(s, a) then 1 else 0) + StepsLeft(c, s')
         <= StepsLeft(c, s) + (if Spins(s, a) then 1 else 0)
  {
    StepKeepsCore(c, s, a);
    StepDecreases(c, s, a);
  }

  lemma LastWork(c: Config, s: State, steps: seq<Action>, s': State, moved: nat, turns: nat)
    returns (mid: State, m: nat, t: nat)
    requires |steps| > 1 && Works(c, s, steps, s', moved, turns)
    ensures m <= moved && t <= turns && Works(c, s, steps[..|steps| - 1], mid, m, t)
    ensures Works(c, mid, steps[|steps| - 1..], s', moved - m, turns - t)
  {
    var last := |steps| - 1;
    mid, m, t :|
      && m <= moved && t <= turns
      && Works(c, s, steps[..last], mid, m, t) && Works(c, mid, steps[last..], s', moved - m, turns - t);
  }

  lemma OneStepIsBounded(c: Config, s: State, steps: seq<Action>, s': State, moved: nat, turns: nat)
    requires ValidConfig(c) && Session.Core(c, s) && |steps| == 1 && Works(c, s, steps, s', moved, turns)
    ensures Session.Core(c, s') && moved + StepsLeft(c, s') <= StepsLeft(c, s) + turns
  {
    WorkStep(c, s, steps[0]);
  }

  lemma {:induction false} WorkIsBounded(c: Config, s: State, steps: seq<Action>, s': State, moved: nat, turns: nat)
    requires ValidConfig(c) && Session.Core(c, s) && Works(c, s, steps, s', moved, turns)
    ensures Session.Core(c, s') && moved + StepsLeft(c, s') <= StepsLeft(c, s) + turns
    decreases |steps|
  {
    hide Session.Core;
    if |steps| == 1 {
      OneStepIsBounded(c, s, steps, s', moved, turns);
    } else if |steps| > 1 {
      var last := |steps| - 1;
      var mid, m, t := LastWork(c, s, steps, s', moved, turns);
      WorkIsBounded(c, s, steps[..last], mid, m, t);
      OneStepIsBounded(c, mid, steps[last..], s', moved - m, turns - t);
    }
  }

  lemma {:induction false} TodoSteps(c: Config, loc: seq<Loc>)
    requires forall i :: 0 <= i < |loc| ==> Unread(loc[i])
    ensures T.Total(c, T.StepsLeft, loc) <= 60 * |loc|
    decreases |loc|
  {
    if loc != [] { TodoSteps(c, loc[..|loc| - 1]); }
  }

  lemma {:induction false} InitialWorkers(c: Config, ws: seq<WorkerPc>)
    requires forall j :: 0 <= j < |ws| ==> ws[j].WInit?
    ensures W.Sum(c, W.StepsLeft, ws) == 6 * |ws|
    decreases |ws|
  {
    if ws != [] { InitialWorkers(c, ws[..|ws| - 1]); }
  }

  lemma BootSteps(c: Config, target: seq<Block>, f: Files, readTable: bool, readBits: bool)
    ensures StepsLeft(c, Boot(c, target, f, readTable, readBits)) <= 70 * c.n + 6 * c.workers + 11
  {
    var s0 := Boot(c, target, f, readTable, readBits);
    TodoSteps(c, s0.hist.loc);
    InitialWorkers(c, s0.hs.ws);
    assert ReaderLeft(c, s0.rd) <= 10 * c.n + 8;
  }

  // A run of n blocks and w workers, the first one or one after a crash, takes at most
  // 70 n + 6 w + 11 steps of the threads, and one more for each time the reader looks at a raised
  // pause flag.
  lemma RunsAreFinite(c: Config, target: seq<Block>, f: Files, readTable: bool, readBits: bool,
                      steps: seq<Action>, s: State, moved: nat, turns: nat)
    requires ValidConfig(c) && Startable(c, target, f)
    requires Works(c, Boot(c, target, f, readTable, readBits), steps, s, moved, turns)
    ensures moved <= 70 * c.n + 6 * c.workers + 11 + turns
  {
    BootKeepsCore(c, target, f, readTable, readBits);
    WorkIsBounded(c, Boot(c, target, f, readTable, readBits), steps, s, moved, turns);
    BootSteps(c, target, f, readTable, readBits);
  }

  // ---------------------------------------------------------------- no deadlock

  predicate AllExited(s: State) {
    s.rd.pc.RDone? && s.wr.pc.NDone? && forall j :: 0 <= j < |s.hs.ws| ==> s.hs.ws[j].WDone?
  }

  ghost predicate CanMove(c: Config, s: State, a: Action) { ThreadStep(a) && Enabled(c, s, a) && !Spins(s, a) }

  lemma ReaderMoves(c: Config, s: State)
    requires ValidConfig(c) && Session.Core(c, s) && !s.rd.pc.RDone?
    requires !(s.rd.pc.RPause? && s.ct.pause)
    ensures CanMove(c, s, Reader(true))
  {
    Bounds.QueuesShort(c, s);
  }

  lemma WorkerMoves(c: Config, s: State, j: nat)
    requires ValidConfig(c) && Session.Core(c, s) && j < |s.hs.ws| && !s.hs.ws[j].WDone?
    requires s.hs.ws[j].WPop? ==> CanPop(s.hq)
    ensures CanMove(c, s, Worker(j))
  {
    Bounds.QueuesShort(c, s);
    if s.hq.items != [] { assert InRange(c, s.hq.items[0]); }
  }

  lemma WriterMoves(c: Config, s: State)
    requires ValidConfig(c) && Session.Core(c, s) && !s.wr.pc.NDone?
    requires s.wr.pc.NPop? ==> CanPop(s.wq)
    ensures CanMove(c, s, Writer(false, []))
  {
    if s.wq.items != [] { assert InRange(c, s.wq.items[0]); }
  }

  // Until all threads have exited one of them can move, or the reader waits for a refresh to
  // lower the pause flag; read failures, write failures and aborts included.
  lemma NoDeadlock(c: Config, steps: seq<Action>, s: State)
    requires ValidConfig(c) && Reaches(c, Init(c), steps, s)
    requires !AllExited(s)
    ensures (exists a :: CanMove(c, s, a)) || (s.rd.pc.RPause? && s.ct.pause && ControlThread.Refreshing(s.ct.pc))
  {
    ReachableCore(c, steps, s);
    if s.rd.pc.RPause? && s.ct.pause {
    } else if !s.rd.pc.RDone? {
      ReaderMoves(c, s);
    } else if j :| 0 <= j < |s.hs.ws| && !s.hs.ws[j].WDone? {
      assert c.hasher;
      WorkerMoves(c, s, j);
    } else {
      WriterMoves(c, s);
    }
  }

  // A refresh comes to its end and lowers the flag.
  function RefreshLeft(c: Config, pc: ControlPc): nat {
    var cap := Capacity(c.n);
    match pc
    case CCopyP(k, _, why) => (if k <= cap then cap - k else 0) + (if why.First? then 3 * cap + 9 else cap + 5)
    case CCopyW(k, _, _, why) => (if k <= cap then cap - k else 0) + (if why.First? then 2 * cap + 8 else 4)
    case CTable(_) => 2 * cap + 7
    case CFsync(_) => 2 * cap + 6
    case CSaveNew(_, _) => 3
    case CSaveOld(_) => 2
    case CResume => 1
    case _ => 0
  }

  lemma RefreshEnds(c: Config, s: State, choice: Choice, ok: bool)
    requires ControlCan(c, s, choice) && ControlThread.Refreshing(s.ct.pc)
    ensures var s' := ControlStep(c, s, choice, ok);
      && RefreshLeft(c, s'.ct.pc) < RefreshLeft(c, s.ct.pc)
      && (ControlThread.Refreshing(s'.ct.pc) || !s'.ct.pause)
  {}

  lemma FirstBufferHeld(c: Config, s: State)
    requires Session.Core(c, s) && s.rd.pc.RFetch? && FirstFree(s.pool.alloc) == ALLOCATOR_BLOCKS
    ensures Holders.QueueHolds(s.hq.items, 0) || Holders.WorkersHold(s.hs.ws, 0) || Holders.QueueHolds(s.wq.items, 0)
            || Holders.WriterHolds(s.wr, 0)
  {
    assert s.pool.alloc[0] && !s.rd.status.Failed?;
    assert Holders.Held(s, 0);
  }

  lemma StarvedIsServed(c: Config, s: State) returns (a: Action)
    requires ValidConfig(c) && Session.Core(c, s)
    requires s.rd.pc.RFetch? && FirstFree(s.pool.alloc) == ALLOCATOR_BLOCKS && ControlThread.NoAbort(s)
    ensures (a.Worker? || a == Writer(false, [])) && CanMove(c, s, a)
  {
    FirstBufferHeld(c, s);
    if Holders.QueueHolds(s.wq.items, 0) || Holders.WriterHolds(s.wr, 0) {
      WriterMoves(c, s);
      a := Writer(false, []);
    } else if Holders.WorkersHold(s.hs.ws, 0) {
      var j :| 0 <= j < |s.hs.ws| && HasItem(s.hs.ws[j]) && s.hs.ws[j].b.slot == 0;
      WorkerMoves(c, s, j);
      a := Worker(j);
    } else {
      assert c.hasher && !Handshake.Exited(s.hs.ws[0]);
      WorkerMoves(c, s, 0);
      a := Worker(0);
    }
  }

  // In runs without an abort a reader starved of buffers is never alone, whatever Writes have
  // failed: each buffer is in the hands of a worker or the writer that can move, or of a queue one
  // of them can pop.
  lemma StarvedReaderIsServed(c: Config, steps: seq<Action>, s: State)
    requires ValidConfig(c) && Reaches(c, Init(c), steps, s)
    requires s.rd.pc.RFetch? && FirstFree(s.pool.alloc) == ALLOCATOR_BLOCKS && ControlThread.NoAbort(s)
    ensures CanMove(c, s, Writer(false, [])) || exists j :: CanMove(c, s, Worker(j))
  {
    ReachableCore(c, steps, s);
    var a := StarvedIsServed(c, s);
  }
}
