/** The queues of the pipeline are the monitor's: what a step of a thread does to one of them is what
    one critical section of BlockingQueue does, and a thread that cannot step is one that waits. */
module PipelineQueues {
  import opened Common
  import opened Pipeline
  import Q = BlockingQueues

  // The monitor holds the same items, and has the size the tasks give it.
  predicate Shows(m: Q.Monitor<Item>, q: Queue) {
    m.items == q.items && m.finished == q.finished && m.max == QUEUE_SIZE
  }

  // ---------------------------------------------------------------- queues

  lemma PushIsPush(m: Q.Monitor<Item>, q: Queue, t: nat, b: Item, wake: nat)
    requires Shows(m, q) && Q.Can(m, Q.Push(t, b, wake))
    ensures var (m', reply) := Q.Step(m, Q.Push(t, b, wake));
      && (CanPush(q) <==> !reply.Waits?) && Shows(m', if CanPush(q) then Push(q, b) else q)
      && (CanPush(q) ==> reply == if q.finished then Q.Refused else Q.Pushed)
  {}

  // The first look at the queue, and every later one.
  predicate Looks(op: Q.Op<Item>) { op.Pop? || op.PopAgain? }

  function Popped(q: Queue): Queue
    requires CanPop(q)
  {
    if q.items != [] then q.(items := q.items[1..]) else q
  }

  lemma PopIsPop(m: Q.Monitor<Item>, q: Queue, op: Q.Op<Item>)
    requires Shows(m, q) && Looks(op) && Q.Can(m, op)
    ensures var (m', reply) := Q.Step(m, op);
      && (CanPop(q) <==> !reply.Waits?) && Shows(m', if CanPop(q) then Popped(q) else q)
      && (CanPop(q) ==> reply == if q.items != [] then Q.Popped(q.items[0]) else Q.Refused)
  {}

  // ---------------------------------------------------------------- threads

  lemma ReaderPushes(c: Config, s: State, m: Q.Monitor<Item>, t: nat, wake: nat)
    requires Sized(c, s) && s.rd.pc.RPush? && s.rd.cur < c.n && s.rd.pc.slot < ALLOCATOR_BLOCKS
    requires Shows(m, if c.hasher then s.hq else s.wq) && Q.Can(m, Q.Push(t, Item(s.rd.pc.slot, s.rd.cur), wake))
    ensures var (m', reply) := Q.Step(m, Q.Push(t, Item(s.rd.pc.slot, s.rd.cur), wake));
      && (ReaderCan(c, s, false) <==> !reply.Waits?)
      && (ReaderCan(c, s, false) ==>
            var s' := ReaderStep(c, s, false);
            && Shows(m', if c.hasher then s'.hq else s'.wq) && (if c.hasher then s'.wq == s.wq else s'.hq == s.hq)
            && (s'.hist.refused <==> s.hist.refused || reply.Refused?))
  {
    PushIsPush(m, if c.hasher then s.hq else s.wq, t, Item(s.rd.pc.slot, s.rd.cur), wake);
  }

  lemma WorkerPops(c: Config, s: State, j: nat, m: Q.Monitor<Item>, op: Q.Op<Item>)
    requires Sized(c, s) && j < |s.hs.ws| && s.hs.ws[j].WPop? && (s.hq.items != [] ==> InRange(c, s.hq.items[0]))
    requires Shows(m, s.hq) && Looks(op) && Q.Can(m, op)
    ensures var (m', reply) := Q.Step(m, op);
      && (WorkerCan(c, s, j) <==> !reply.Waits?)
      && (WorkerCan(c, s, j) ==>
            var s' := WorkerStep(c, s, j);
            && Shows(m', s'.hq) && s'.wq == s.wq
            && s'.hs.ws[j] == if reply.Popped? then WHash(reply.v) else WExit)
  {
    PopIsPop(m, s.hq, op);
  }

  lemma WorkerPushes(c: Config, s: State, j: nat, m: Q.Monitor<Item>, t: nat, wake: nat)
    requires Sized(c, s) && j < |s.hs.ws| && s.hs.ws[j].WPush? && InRange(c, s.hs.ws[j].b)
    requires Shows(m, s.wq) && Q.Can(m, Q.Push(t, s.hs.ws[j].b, wake))
    ensures var (m', reply) := Q.Step(m, Q.Push(t, s.hs.ws[j].b, wake));
      && (WorkerCan(c, s, j) <==> !reply.Waits?)
      && (WorkerCan(c, s, j) ==>
            var s' := WorkerStep(c, s, j);
            Shows(m', s'.wq) && s'.hq == s.hq && (s'.hist.refused <==> s.hist.refused || reply.Refused?))
  {
    PushIsPush(m, s.wq, t, s.hs.ws[j].b, wake);
  }

  lemma WriterPops(c: Config, s: State, m: Q.Monitor<Item>, op: Q.Op<Item>)
    requires Sized(c, s) && s.wr.pc.NPop? && (s.wq.items != [] ==> InRange(c, s.wq.items[0]))
    requires Shows(m, s.wq) && Looks(op) && Q.Can(m, op)
    ensures var (m', reply) := Q.Step(m, op);
      && (WriterCan(c, s) <==> !reply.Waits?)
      && (WriterCan(c, s) ==>
            var s' := WriterStep(c, s, false, []);
            && Shows(m', s'.wq) && s'.hq == s.hq
            && s'.wr.pc == if reply.Popped? then NGot(reply.v) else NFinal)
  {
    PopIsPop(m, s.wq, op);
  }

  // The reader finishes the queue it feeds, the last worker the write queue.
  lemma ReaderFinishes(c: Config, s: State, m: Q.Monitor<Item>)
    requires ReaderCan(c, s, false) && s.rd.pc.RFin? && Shows(m, if c.hasher then s.hq else s.wq)
    ensures var s' := ReaderStep(c, s, false);
      && Shows(Q.Step(m, Q.Finish).0, if c.hasher then s'.hq else s'.wq)
      && (if c.hasher then s'.wq == s.wq else s'.hq == s.hq)
  {}

  lemma WorkerFinishes(c: Config, s: State, j: nat, m: Q.Monitor<Item>)
    requires WorkerCan(c, s, j) && s.hs.ws[j].WFinQ? && Shows(m, s.wq)
    ensures Shows(Q.Step(m, Q.Finish).0, WorkerStep(c, s, j).wq) && WorkerStep(c, s, j).hq == s.hq
  {}

  // ---------------------------------------------------------------- all other steps

  // Neither queue is touched by any other step of a thread.
  predicate AtQueue(s: State, a: Action) {
    match a
    case Reader(_) => s.rd.pc.RPush? || s.rd.pc.RFin?
    case Worker(j) => j < |s.hs.ws| && (s.hs.ws[j].WPop? || s.hs.ws[j].WPush? || s.hs.ws[j].WFinQ?)
    case Writer(_, _) => s.wr.pc.NPop?
    case _ => false
  }

  lemma ReaderLeavesTheQueues(c: Config, s: State, fail: bool)
    requires ReaderCan(c, s, fail) && !s.rd.pc.RPush? && !s.rd.pc.RFin?
    ensures ReaderStep(c, s, fail).hq == s.hq && ReaderStep(c, s, fail).wq == s.wq
  {}

  lemma WorkerLeavesTheQueues(c: Config, s: State, j: nat)
    requires WorkerCan(c, s, j) && !s.hs.ws[j].WPop? && !s.hs.ws[j].WPush? && !s.hs.ws[j].WFinQ?
    ensures WorkerStep(c, s, j).hq == s.hq && WorkerStep(c, s, j).wq == s.wq
  {}

  lemma WriterLeavesTheQueues(c: Config, s: State, fail: bool, junk: Block)
    requires WriterCan(c, s) && !s.wr.pc.NPop?
    ensures WriterStep(c, s, fail, junk).hq == s.hq && WriterStep(c, s, fail, junk).wq == s.wq
  {}

  lemma OthersLeaveTheQueues(c: Config, s: State, a: Action)
    requires Enabled(c, s, a) && !AtQueue(s, a) && !a.Crash?
    ensures Next(c, s, a).hq == s.hq && Next(c, s, a).wq == s.wq
  {
    match a
    case Reader(fail) => ReaderLeavesTheQueues(c, s, fail);
    case Worker(j) => WorkerLeavesTheQueues(c, s, j);
    case Writer(fail, junk) => WriterLeavesTheQueues(c, s, fail, junk);
    case Control(_, _) =>
  }
}
