/** The shutdown handshake: who finishes which queue, and that nobody is left holding a block. */
module Handshake {
  import opened Common
  import opened Pipeline
  import opened WorkerSums
  import opened Frames

  predicate Exited(w: WorkerPc) { w.WExit? || w.WTest? || w.WFinQ? || w.WDone? }

  predicate HashQueueOver(s: State) { s.hq.finished && s.hq.items == [] }

  // Why a worker may leave its loop; once true it stays true.
  predicate Drained(s: State) { s.ct.habort || HashQueueOver(s) }

  // A worker that holds no block and can no longer get one.
  predicate Spent(s: State, w: WorkerPc) {
    Exited(w) || w.WInit? || w.WLoop? || (w.WPop? && HashQueueOver(s))
  }

  predicate Quiet(s: State) {
    Drained(s) && forall j :: 0 <= j < |s.hs.ws| ==> Spent(s, s.hs.ws[j])
  }

  ghost predicate SomeoneLeft(ws: seq<WorkerPc>) { exists j :: 0 <= j < |ws| && !ws[j].WDone? }

  predicate ReaderShut(c: Config, s: State) {
    && (c.hasher ==> (s.hq.finished <==> s.rd.pc.RDone?))
    && (!c.hasher ==> s.hq == Queue([], false) && (s.wq.finished <==> s.rd.pc.RDone?))
    && ((s.rd.pc.RFin? || s.rd.pc.RDone?) <==> Terminal(s.rd.status))
    && (s.rd.status.Succeed? ==> s.rd.cur >= c.n)
  }

  ghost predicate WorkersShut(c: Config, s: State) {
    && s.hs.running == Sum(c, Counting, s.hs.ws)
    && (forall j :: 0 <= j < |s.hs.ws| && Exited(s.hs.ws[j]) ==> Drained(s))
    && (forall j :: 0 <= j < |s.hs.ws| && s.hs.ws[j].WFinQ? ==> Quiet(s))
    && (c.hasher && s.wq.finished ==> Quiet(s))
    && (c.hasher ==> s.wq.finished || SomeoneLeft(s.hs.ws))
    && (c.hasher && s.hs.status.Succeed? ==> HashQueueOver(s))
    && (!c.hasher ==> s.hs.status.Succeed?)
    && (s.hs.status.Failed? ==> false)
  }

  predicate WriterShut(s: State) {
    && ((s.wr.pc.NFinal? || s.wr.pc.NDone?) <==> Terminal(s.wr.status))
    && (s.wr.status.Succeed? || s.wr.status.Failed? ==> s.wq.finished && s.wq.items == [])
    && (s.wr.status.Failed? ==> s.wr.pc.NDone?)
    && (s.wr.pc.NDone? && s.wr.status.Succeed? ==> s.wr.fails == 0)
  }

  ghost predicate Inv(c: Config, s: State) {
    && Sized(c, s)
    && ReaderShut(c, s)
    && WorkersShut(c, s)
    && WriterShut(s)
    && !s.hist.refused
  }

  lemma WorkersShutFrame(c: Config, s: State, s': State)
    requires WorkersShut(c, s) && s'.hs == s.hs
    requires s.ct.habort ==> s'.ct.habort
    requires HashQueueOver(s) ==> HashQueueOver(s')
    requires c.hasher ==> s'.wq.finished == s.wq.finished
    ensures WorkersShut(c, s')
  {
    assert Quiet(s) ==> Quiet(s');
  }

  lemma ReaderKeepsWorkers(c: Config, s: State, fail: bool)
    requires ValidConfig(c) && Inv(c, s) && ReaderCan(c, s, fail)
    ensures WorkersShut(c, ReaderStep(c, s, fail))
  {
    var s' := ReaderStep(c, s, fail);
    assert s'.hs == s.hs && s'.ct == s.ct;
    assert HashQueueOver(s) ==> HashQueueOver(s');
    WorkersShutFrame(c, s, s');
  }

  lemma ReaderKeeps(c: Config, s: State, fail: bool)
    requires ValidConfig(c) && Inv(c, s) && ReaderCan(c, s, fail)
    ensures Inv(c, ReaderStep(c, s, fail))
  {
    ReaderSizes(c, s, fail);
    ReaderKeepsWorkers(c, s, fail);
  }

  lemma WorkerKeepsCount(c: Config, s: State, j: nat)
    requires ValidConfig(c) && Inv(c, s) && WorkerCan(c, s, j)
    ensures var s' := WorkerStep(c, s, j); s'.hs.running == Sum(c, Counting, s'.hs.ws)
  {
    SumUpdate(c, Counting, s.hs.ws, j, WorkerStep(c, s, j).hs.ws[j]);
  }

  // The worker that reads zero after its decrement may finish the queue: nobody else counts.
  lemma LastOneOut(c: Config, s: State, j: nat)
    requires Inv(c, s) && j < |s.hs.ws| && s.hs.ws[j].WTest? && s.hs.running == 0
    ensures Quiet(s)
  {
    SumZero(c, Counting, s.hs.ws);
  }

  // A worker that reads another value leaves somebody behind who will finish the queue.
  lemma NotTheLast(c: Config, s: State, j: nat)
    requires Inv(c, s) && j < |s.hs.ws| && s.hs.ws[j].WTest? && s.hs.running != 0
    ensures exists k :: 0 <= k < |s.hs.ws| && k != j && !s.hs.ws[k].WDone?
  {
    SumZero(c, Counting, s.hs.ws);
    var k :| 0 <= k < |s.hs.ws| && Weight(c, Counting, s.hs.ws[k]) != 0;
    assert k != j && !s.hs.ws[k].WDone?;
  }

  lemma WorkerKeepsQuiet(c: Config, s: State, j: nat)
    requires ValidConfig(c) && Inv(c, s) && WorkerCan(c, s, j) && Quiet(s)
    ensures Quiet(WorkerStep(c, s, j))
  {}

  // Somebody is left to finish the write queue.
  lemma WorkerKeepsSomeone(c: Config, s: State, j: nat)
    requires ValidConfig(c) && Inv(c, s) && WorkerCan(c, s, j) && c.hasher
    ensures var s' := WorkerStep(c, s, j); s'.wq.finished || SomeoneLeft(s'.hs.ws)
  {
    var s' := WorkerStep(c, s, j);
    if s.hs.ws[j].WTest? && s.hs.running != 0 {
      NotTheLast(c, s, j);
      var k :| 0 <= k < |s.hs.ws| && k != j && !s.hs.ws[k].WDone?;
      assert s'.hs.ws[k] == s.hs.ws[k];
    } else if !s.hs.ws[j].WFinQ? {
      assert !s'.hs.ws[j].WDone?;
    }
  }

  lemma WorkerKeepsDrained(c: Config, s: State, j: nat)
    requires ValidConfig(c) && Inv(c, s) && WorkerCan(c, s, j)
    ensures var s' := WorkerStep(c, s, j);
      && (forall k :: 0 <= k < |s'.hs.ws| && Exited(s'.hs.ws[k]) ==> Drained(s'))
      && (forall k :: 0 <= k < |s'.hs.ws| && s'.hs.ws[k].WFinQ? ==> Quiet(s'))
      && (c.hasher && s'.wq.finished ==> Quiet(s'))
  {
    if Quiet(s) {
      WorkerKeepsQuiet(c, s, j);
    } else if s.hs.ws[j].WTest? && s.hs.running == 0 {
      LastOneOut(c, s, j);
      WorkerKeepsQuiet(c, s, j);
    }
  }

  lemma WorkerKeeps(c: Config, s: State, j: nat)
    requires ValidConfig(c) && Inv(c, s) && WorkerCan(c, s, j)
    ensures Inv(c, WorkerStep(c, s, j))
  {
    WorkerSizes(c, s, j);
    WorkerKeepsCount(c, s, j);
    WorkerKeepsSomeone(c, s, j);
    WorkerKeepsDrained(c, s, j);
  }

  lemma WriterKeepsWorkers(c: Config, s: State, fail: bool, junk: Block)
    requires ValidConfig(c) && Inv(c, s) && WriterCan(c, s)
    ensures WorkersShut(c, WriterStep(c, s, fail, junk))
  {
    var s' := WriterStep(c, s, fail, junk);
    assert s'.hs == s.hs && s'.ct == s.ct && s'.hq == s.hq && s'.wq.finished == s.wq.finished;
    WorkersShutFrame(c, s, s');
  }

  lemma WriterKeepsWriter(c: Config, s: State, fail: bool, junk: Block)
    requires WriterCan(c, s) && WriterShut(s)
    ensures var s' := WriterStep(c, s, fail, junk);
      && WriterShut(s') && s'.rd == s.rd && s'.hq == s.hq && s'.wq.finished == s.wq.finished
      && s'.hist.refused == s.hist.refused
  {}

  lemma WriterKeeps(c: Config, s: State, fail: bool, junk: Block)
    requires ValidConfig(c) && Inv(c, s) && WriterCan(c, s)
    ensures Inv(c, WriterStep(c, s, fail, junk))
  {
    WriterSizes(c, s, fail, junk);
    WriterKeepsWorkers(c, s, fail, junk);
    WriterKeepsWriter(c, s, fail, junk);
  }

  lemma ControlKeeps(c: Config, s: State, s': State)
    requires Inv(c, s) && ControlFrame(s, s')
    ensures Inv(c, s')
  {
    assert Quiet(s) ==> Quiet(s');
  }
}
