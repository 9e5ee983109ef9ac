/** The bounded queue between the threads: a monitor with two condition variables.

    A thread inside BlockingPush or BlockingPop either waits on its condition variable, or has been
    woken and has yet to take the lock again. Every operation below is one critical section: from
    taking the lock to waiting or returning. */
module BlockingQueues {
  import opened Common

  datatype Monitor<T> = Monitor(
    items: seq<T>, finished: bool, max: nat,
    consumersWaiting: set<nat>, consumersWoken: set<nat>,   // threads at m_notEmpty
    producersWaiting: set<nat>, producersWoken: set<nat>,   // threads at m_notFull
    bringing: map<nat, T>,                                  // what each producer inside wants to push
    accepted: seq<T>, delivered: seq<T>)                    // history

  // `wake` is the waiting thread that notify_one picks.
  datatype Op<T> =
    | Push(t: nat, v: T, wake: nat) | PushAgain(t: nat, wake: nat)
    | Pop(t: nat, wake: nat) | PopAgain(t: nat, wake: nat)
    | TryPush(v: T, wake: nat) | TryPop(wake: nat)
    | Finish
    | SpuriousProducer(t: nat) | SpuriousConsumer(t: nat)

  datatype Reply<T> = Waits | Refused | Pushed | Popped(v: T) | Nothing

  function Inside<T>(m: Monitor<T>): set<nat> {
    m.consumersWaiting + m.consumersWoken + m.producersWaiting + m.producersWoken
  }

  predicate Picks(waiting: set<nat>, wake: nat) { waiting != {} ==> wake in waiting }

  predicate Can<T>(m: Monitor<T>, op: Op<T>) {
    match op
    case Push(t, _, wake) => t !in Inside(m) && Picks(m.consumersWaiting, wake)
    case PushAgain(t, wake) => t in m.producersWoken && t in m.bringing && Picks(m.consumersWaiting, wake)
    case Pop(t, wake) => t !in Inside(m) && Picks(m.producersWaiting, wake)
    case PopAgain(t, wake) => t in m.consumersWoken && Picks(m.producersWaiting, wake)
    case TryPush(_, wake) => Picks(m.consumersWaiting, wake)
    case TryPop(wake) => Picks(m.producersWaiting, wake)
    case Finish => true
    case SpuriousProducer(t) => t in m.producersWaiting
    case SpuriousConsumer(t) => t in m.consumersWaiting
  }

  function Accept<T>(m: Monitor<T>, v: T, wake: nat): Monitor<T> {
    var woken := m.consumersWaiting * {wake};
    m.(items := m.items + [v], accepted := m.accepted + [v],
       consumersWaiting := m.consumersWaiting - woken, consumersWoken := m.consumersWoken + woken)
  }

  function Deliver<T>(m: Monitor<T>, wake: nat): Monitor<T>
    requires m.items != []
  {
    var woken := m.producersWaiting * {wake};
    m.(items := m.items[1..], delivered := m.delivered + [m.items[0]],
       producersWaiting := m.producersWaiting - woken, producersWoken := m.producersWoken + woken)
  }

  // A producer that holds the lock and has seen the queue not finished, or has waited already.
  function PushOrWait<T>(m: Monitor<T>, t: nat, v: T, wake: nat): (Monitor<T>, Reply<T>) {
    if |m.items| < m.max then (Accept(m, v, wake), Pushed)
    else (m.(producersWaiting := m.producersWaiting + {t}, bringing := m.bringing[t := v]), Waits)
  }

  function PopOrWait<T>(m: Monitor<T>, t: nat, wake: nat): (Monitor<T>, Reply<T>) {
    if m.items != [] then (Deliver(m, wake), Popped(m.items[0]))
    else if m.finished then (m, Refused)
    else (m.(consumersWaiting := m.consumersWaiting + {t}), Waits)
  }

  function Step<T>(m: Monitor<T>, op: Op<T>): (Monitor<T>, Reply<T>)
    requires Can(m, op)
  {
    match op
    case Push(t, v, wake) => if m.finished then (m, Refused) else PushOrWait(m, t, v, wake)
    case PushAgain(t, wake) =>
      PushOrWait(m.(producersWoken := m.producersWoken - {t}, bringing := m.bringing - {t}), t, m.bringing[t], wake)
    case Pop(t, wake) => PopOrWait(m, t, wake)
    case PopAgain(t, wake) => PopOrWait(m.(consumersWoken := m.consumersWoken - {t}), t, wake)
    case TryPush(v, wake) =>
      if m.finished || |m.items| >= m.max then (m, Refused) else (Accept(m, v, wake), Pushed)
    case TryPop(wake) => if m.items == [] then (m, Refused) else (Deliver(m, wake), Popped(m.items[0]))
    case Finish =>
      (m.(finished := true,
          consumersWaiting := {}, consumersWoken := m.consumersWoken + m.consumersWaiting,
          producersWaiting := {}, producersWoken := m.producersWoken + m.producersWaiting), Nothing)
    case SpuriousProducer(t) =>
      (m.(producersWaiting := m.producersWaiting - {t}, producersWoken := m.producersWoken + {t}), Nothing)
    case SpuriousConsumer(t) =>
      (m.(consumersWaiting := m.consumersWaiting - {t}, consumersWoken := m.consumersWoken + {t}), Nothing)
  }

  function Empty<T>(max: nat): Monitor<T> { Monitor([], false, max, {}, {}, {}, {}, map[], [], []) }

  ghost predicate Runs<T(!new)>(m: Monitor<T>, ops: seq<Op<T>>, m': Monitor<T>)
    decreases |ops|
  {
    if ops == [] then m == m'
    else
      var last := |ops| - 1;
      exists mid :: Runs(m, ops[..last], mid) && Can(mid, ops[last]) && Step(mid, ops[last]).0 == m'
  }

  // ---------------------------------------------------------------- the class

  class BlockingQueue<T(==)> {
    var queue: seq<T>
    var finished: bool
    const maxSize: nat
    var notEmptyWaiting: set<nat>
    var notEmptyWoken: set<nat>
    var notFullWaiting: set<nat>
    var notFullWoken: set<nat>
    var bringing: map<nat, T>
    ghost var accepted: seq<T>
    ghost var delivered: seq<T>

    ghost function State(): Monitor<T>
      reads this
    {
      Monitor(queue, finished, maxSize, notEmptyWaiting, notEmptyWoken, notFullWaiting, notFullWoken, bringing,
              accepted, delivered)
    }

    constructor (maxSize: nat)
      ensures State() == Empty(maxSize)
    {
      queue, finished, bringing := [], false, map[];
      this.maxSize := maxSize;
      notEmptyWaiting, notEmptyWoken, notFullWaiting, notFullWoken := {}, {}, {}, {};
      accepted, delivered := [], [];
    }

    method NotifyOneConsumer(wake: nat)
      modifies this`notEmptyWaiting, this`notEmptyWoken
      ensures notEmptyWaiting == old(notEmptyWaiting) - {wake}
      ensures notEmptyWoken == old(notEmptyWoken) + (old(notEmptyWaiting) * {wake})
    {
      if wake in notEmptyWaiting {
        notEmptyWaiting, notEmptyWoken := notEmptyWaiting - {wake}, notEmptyWoken + {wake};
      }
    }

    method NotifyOneProducer(wake: nat)
      modifies this`notFullWaiting, this`notFullWoken
      ensures notFullWaiting == old(notFullWaiting) - {wake}
      ensures notFullWoken == old(notFullWoken) + (old(notFullWaiting) * {wake})
    {
      if wake in notFullWaiting {
        notFullWaiting, notFullWoken := notFullWaiting - {wake}, notFullWoken + {wake};
      }
    }

    // From the wait on m_notFull to the end of BlockingPush.
    method PushWhenNotFull(t: nat, v: T, wake: nat) returns (reply: Reply<T>)
      modifies this
      ensures (State(), reply) == PushOrWait(old(State()), t, v, wake)
    {
      if |queue| < maxSize {
        queue, accepted := queue + [v], accepted + [v];
        NotifyOneConsumer(wake);
        assert State().consumersWaiting == Accept(old(State()), v, wake).consumersWaiting;
        reply := Pushed;
      } else {
        notFullWaiting, bringing := notFullWaiting + {t}, bringing[t := v];
        reply := Waits;
      }
    }

    // From the wait on m_notEmpty to the end of BlockingPop.
    method PopWhenNotEmpty(t: nat, wake: nat) returns (reply: Reply<T>)
      modifies this
      ensures (State(), reply) == PopOrWait(old(State()), t, wake)
    {
      if queue == [] && !finished {
        notEmptyWaiting := notEmptyWaiting + {t};
        reply := Waits;
      } else if queue == [] && finished {
        reply := Refused;
      } else {
        reply := Popped(queue[0]);
        queue, delivered := queue[1..], delivered + [queue[0]];
        NotifyOneProducer(wake);
        assert State().producersWaiting == Deliver(old(State()), wake).producersWaiting;
      }
    }

    method BlockingPush(t: nat, v: T, wake: nat) returns (reply: Reply<T>)
      requires Can(State(), Push(t, v, wake))
      modifies this
      ensures (State(), reply) == Step(old(State()), Push(t, v, wake))
    {
      if finished {
        return Refused;
      }
      reply := PushWhenNotFull(t, v, wake);
    }

    method ResumePush(t: nat, wake: nat) returns (reply: Reply<T>)
      requires Can(State(), PushAgain(t, wake))
      modifies this
      ensures (State(), reply) == Step(old(State()), PushAgain(t, wake))
    {
      var v := bringing[t];
      notFullWoken, bringing := notFullWoken - {t}, bringing - {t};
      reply := PushWhenNotFull(t, v, wake);
    }

    method BlockingPop(t: nat, wake: nat) returns (reply: Reply<T>)
      requires Can(State(), Pop(t, wake))
      modifies this
      ensures (State(), reply) == Step(old(State()), Pop(t, wake))
    {
      reply := PopWhenNotEmpty(t, wake);
    }

    method ResumePop(t: nat, wake: nat) returns (reply: Reply<T>)
      requires Can(State(), PopAgain(t, wake))
      modifies this
      ensures (State(), reply) == Step(old(State()), PopAgain(t, wake))
    {
      notEmptyWoken := notEmptyWoken - {t};
      reply := PopWhenNotEmpty(t, wake);
    }

    method Finish()
      modifies this
      ensures State() == Step(old(State()), Op.Finish).0
    {
      finished := true;
      notFullWaiting, notFullWoken := {}, notFullWoken + notFullWaiting;
      notEmptyWaiting, notEmptyWoken := {}, notEmptyWoken + notEmptyWaiting;
    }

    method TryBlockingPush(v: T, wake: nat) returns (reply: Reply<T>)
      requires Can(State(), TryPush(v, wake))
      modifies this
      ensures (State(), reply) == Step(old(State()), TryPush(v, wake))
    {
      if finished || |queue| >= maxSize {
        return Refused;
      }
      queue, accepted := queue + [v], accepted + [v];
      NotifyOneConsumer(wake);
      assert State().consumersWaiting == Accept(old(State()), v, wake).consumersWaiting;
      reply := Pushed;
    }

    method TryBlockingPop(wake: nat) returns (reply: Reply<T>)
      requires Can(State(), TryPop(wake))
      modifies this
      ensures (State(), reply) == Step(old(State()), TryPop(wake))
    {
      if queue == [] {
        return Refused;
      }
      reply := Popped(queue[0]);
      queue, delivered := queue[1..], delivered + [queue[0]];
      NotifyOneProducer(wake);
      assert State().producersWaiting == Deliver(old(State()), wake).producersWaiting;
    }
  }

  // ---------------------------------------------------------------- invariants over every history

  // While a consumer waits, every queued item has a woken consumer of its own on the way.
  ghost predicate ConsumersServed<T>(m: Monitor<T>) {
    m.consumersWaiting != {} ==> !m.finished && |m.items| <= |m.consumersWoken|
  }

  ghost predicate ProducersServed<T>(m: Monitor<T>) {
    m.producersWaiting != {} ==> m.max - |m.items| <= |m.producersWoken|
  }

  ghost predicate ThreadsApart<T>(m: Monitor<T>) {
    && m.consumersWaiting !! m.consumersWoken !! m.producersWaiting !! m.producersWoken
    && m.bringing.Keys == m.producersWaiting + m.producersWoken
  }

  ghost predicate ItemsKept<T>(m: Monitor<T>) { m.delivered + m.items == m.accepted && |m.items| <= m.max }

  ghost predicate Inv<T>(m: Monitor<T>) {
    && ThreadsApart(m)
    && ConsumersServed(m)
    && ProducersServed(m)
    && ItemsKept(m)
  }

  lemma StepKeepsThreads<T>(m: Monitor<T>, op: Op<T>)
    requires ThreadsApart(m) && Can(m, op)
    ensures ThreadsApart(Step(m, op).0)
  {}

  // notify_one counts: if somebody waits, one more is on the way.
  lemma ConsumerWoken<T>(m: Monitor<T>, wake: nat)
    requires ThreadsApart(m) && Picks(m.consumersWaiting, wake)
    ensures var woken := m.consumersWaiting * {wake};
      m.consumersWaiting != {} ==> woken == {wake} && |m.consumersWoken + woken| == |m.consumersWoken| + 1
  {
    assert m.consumersWaiting != {} ==> m.consumersWaiting * {wake} == {wake};
  }

  lemma StepKeepsConsumers<T>(m: Monitor<T>, op: Op<T>)
    requires Inv(m) && Can(m, op)
    ensures ConsumersServed(Step(m, op).0)
  {
    match op
    case Push(_, _, wake) => ConsumerWoken(m, wake);
    case PushAgain(_, wake) => ConsumerWoken(m, wake);
    case TryPush(_, wake) => ConsumerWoken(m, wake);
    case SpuriousConsumer(t) => ConsumerWoken(m, t);
    case _ =>
  }

  lemma ProducerWoken<T>(m: Monitor<T>, wake: nat)
    requires ThreadsApart(m) && Picks(m.producersWaiting, wake)
    ensures var woken := m.producersWaiting * {wake};
      m.producersWaiting != {} ==> woken == {wake} && |m.producersWoken + woken| == |m.producersWoken| + 1
  {
    assert m.producersWaiting != {} ==> m.producersWaiting * {wake} == {wake};
  }

  lemma StepKeepsProducers<T>(m: Monitor<T>, op: Op<T>)
    requires Inv(m) && Can(m, op)
    ensures ProducersServed(Step(m, op).0)
  {
    match op
    case Pop(_, wake) => ProducerWoken(m, wake);
    case PopAgain(_, wake) => ProducerWoken(m, wake);
    case TryPop(wake) => ProducerWoken(m, wake);
    case SpuriousProducer(t) => ProducerWoken(m, t);
    case _ =>
  }

  lemma AppendLast<T>(a: seq<T>, b: seq<T>, v: T)
    ensures a + (b + [v]) == (a + b) + [v]
  {}

  lemma PushKeepsItems<T>(m: Monitor<T>, t: nat, v: T, wake: nat)
    requires ItemsKept(m)
    ensures var m' := PushOrWait(m, t, v, wake).0; ItemsKept(m') && m'.max == m.max
  {
    AppendLast(m.delivered, m.items, v);
  }

  lemma HeadMoves<T>(a: seq<T>, b: seq<T>)
    requires b != []
    ensures (a + [b[0]]) + b[1..] == a + b
  {}

  lemma PopKeepsItems<T>(m: Monitor<T>, t: nat, wake: nat)
    requires ItemsKept(m)
    ensures var m' := PopOrWait(m, t, wake).0; ItemsKept(m') && m'.max == m.max
  {
    if m.items != [] { HeadMoves(m.delivered, m.items); }
  }

  lemma StepKeepsItems<T>(m: Monitor<T>, op: Op<T>)
    requires ItemsKept(m) && Can(m, op)
    ensures var m' := Step(m, op).0; ItemsKept(m') && m'.max == m.max
  {
    match op
    case Push(t, v, wake) => PushKeepsItems(m, t, v, wake);
    case PushAgain(t, wake) =>
      var awake := m.(producersWoken := m.producersWoken - {t}, bringing := m.bringing - {t});
      PushKeepsItems(awake, t, m.bringing[t], wake);
    case Pop(t, wake) => PopKeepsItems(m, t, wake);
    case PopAgain(t, wake) => PopKeepsItems(m.(consumersWoken := m.consumersWoken - {t}), t, wake);
    case TryPush(v, wake) => AppendLast(m.delivered, m.items, v);
    case TryPop(wake) => if m.items != [] { HeadMoves(m.delivered, m.items); }
    case _ =>
  }

  lemma {:induction false} RunKeeps<T(!new)>(m: Monitor<T>, ops: seq<Op<T>>, m': Monitor<T>)
    requires Inv(m) && Runs(m, ops, m')
    ensures Inv(m') && m'.max == m.max
    decreases |ops|
  {
    if ops != [] {
      var last := |ops| - 1;
      var mid :| Runs(m, ops[..last], mid) && Can(mid, ops[last]) && Step(mid, ops[last]).0 == m';
      RunKeeps(m, ops[..last], mid);
      StepKeepsThreads(mid, ops[last]);
      StepKeepsConsumers(mid, ops[last]);
      StepKeepsProducers(mid, ops[last]);
      StepKeepsItems(mid, ops[last]);
    }
  }

  // ---------------------------------------------------------------- what follows

  // Bounded FIFO: what was popped, followed by what is queued, is what was accepted, in order.
  lemma BoundedFifo<T(!new)>(max: nat, ops: seq<Op<T>>, m: Monitor<T>)
    requires Runs(Empty(max), ops, m)
    ensures m.delivered + m.items == m.accepted
    ensures |m.items| <= max
  {
    RunKeeps(Empty(max), ops, m);
  }

  // What the thread came with when it last called BlockingPush.
  function LastPush<T>(ops: seq<Op<T>>, t: nat): Option<T> {
    if ops == [] then None
    else
      var last := ops[|ops| - 1];
      if last.Push? && last.t == t then Some(last.v) else LastPush(ops[..|ops| - 1], t)
  }

  lemma StepBrings<T>(m: Monitor<T>, op: Op<T>, t: nat)
    requires ThreadsApart(m) && Can(m, op) && t in Step(m, op).0.bringing
    ensures var bringing := Step(m, op).0.bringing;
      if op.Push? && op.t == t then bringing[t] == op.v else t in m.bringing && bringing[t] == m.bringing[t]
  {}

  lemma {:induction false} ProducersBringTheirOwn<T(!new)>(max: nat, ops: seq<Op<T>>, m: Monitor<T>, t: nat)
    requires Runs(Empty(max), ops, m) && t in m.bringing
    ensures LastPush(ops, t) == Some(m.bringing[t])
    decreases |ops|
  {
    if ops != [] {
      var last := |ops| - 1;
      var mid :| Runs(Empty(max), ops[..last], mid) && Can(mid, ops[last]) && Step(mid, ops[last]).0 == m;
      RunKeeps(Empty(max), ops[..last], mid);
      StepBrings(mid, ops[last], t);
      hide Step, Can, Inv;
      if t in mid.bringing { ProducersBringTheirOwn(max, ops[..last], mid, t); }
    }
  }

  function PushedBy<T>(ops: seq<Op<T>>, op: Op<T>): Option<T> {
    match op
    case Push(_, v, _) => Some(v)
    case PushAgain(t, _) => LastPush(ops, t)
    case TryPush(v, _) => Some(v)
    case _ => None
  }

  // A push that goes through, after however many waits, adds the item that its caller came with; nothing
  // else adds any.
  lemma AcceptsWhatWasPushed<T(!new)>(max: nat, ops: seq<Op<T>>, m: Monitor<T>, op: Op<T>)
    requires Runs(Empty(max), ops, m) && Can(m, op)
    ensures var (m', reply) := Step(m, op);
      if reply.Pushed? then PushedBy(ops, op).Some? && m'.accepted == m.accepted + [PushedBy(ops, op).value]
      else m'.accepted == m.accepted
  {
    if op.PushAgain? { ProducersBringTheirOwn(max, ops, m, op.t); }
  }

  // No wake-up is ever lost, for any number of threads, spurious wake-ups included.
  lemma NoLostWakeUp<T(!new)>(max: nat, ops: seq<Op<T>>, m: Monitor<T>)
    requires Runs(Empty(max), ops, m)
    ensures m.consumersWaiting != {} ==> !m.finished && |m.items| <= |m.consumersWoken|
    ensures m.producersWaiting != {} ==> max - |m.items| <= |m.producersWoken|
  {
    RunKeeps(Empty(max), ops, m);
  }

  // When every thread inside waits, they wait for good reason: consumers on an empty queue nobody
  // has finished, producers on a full one; both at once only if the queue can hold nothing.
  lemma SleepersHaveReason<T(!new)>(max: nat, ops: seq<Op<T>>, m: Monitor<T>)
    requires Runs(Empty(max), ops, m) && m.consumersWoken == m.producersWoken == {}
    ensures m.consumersWaiting != {} ==> m.items == [] && !m.finished
    ensures m.producersWaiting != {} ==> |m.items| == max
    ensures m.consumersWaiting != {} && m.producersWaiting != {} ==> max == 0
  {
    RunKeeps(Empty(max), ops, m);
  }

  // A woken consumer gets an item if there is one, and once the queue is finished it always returns.
  lemma ConsumerReturns<T(!new)>(max: nat, ops: seq<Op<T>>, m: Monitor<T>, op: Op<T>)
    requires Runs(Empty(max), ops, m) && Can(m, op) && (op.Pop? || op.PopAgain?)
    ensures var (m', reply) := Step(m, op);
      && (reply.Waits? <==> m.items == [] && !m.finished)
      && (reply.Refused? <==> m.delivered == m.accepted && m.finished)
      && (reply.Popped? <==> |m.delivered| < |m.accepted|)
      && (reply.Popped? ==> reply.v == m.accepted[|m.delivered|] && m'.delivered == m.delivered + [reply.v])
  {
    RunKeeps(Empty(max), ops, m);
    assert m.accepted == m.delivered + m.items;
    if m.items != [] { assert m.accepted[|m.delivered|] == m.items[0]; }
  }

  // ---------------------------------------------------------------- after Finish

  // Finished, and no producer inside.
  ghost predicate Closed<T>(m: Monitor<T>) { m.finished && m.producersWaiting == {} && m.producersWoken == {} }

  lemma ClosedStep<T>(m: Monitor<T>, op: Op<T>)
    requires Closed(m) && Can(m, op)
    ensures var m' := Step(m, op).0; Closed(m') && m'.accepted == m.accepted && (m.items == [] ==> m'.items == [])
  {}

  lemma {:induction false} ClosedStaysClosed<T(!new)>(m: Monitor<T>, ops: seq<Op<T>>, m': Monitor<T>)
    requires Closed(m) && Runs(m, ops, m')
    ensures Closed(m') && m'.accepted == m.accepted && (m.items == [] ==> m'.items == [])
    decreases |ops|
  {
    if ops != [] {
      var last := |ops| - 1;
      var mid :| Runs(m, ops[..last], mid) && Can(mid, ops[last]) && Step(mid, ops[last]).0 == m';
      ClosedStaysClosed(m, ops[..last], mid);
      ClosedStep(mid, ops[last]);
    }
  }

  lemma WokenPushes<T>(m: Monitor<T>, t: nat) returns (op: Op<T>)
    requires ThreadsApart(m) && t in m.producersWoken && |m.items| < m.max
    ensures Can(m, op) && t in m.bringing && Step(m, op).0.accepted == m.accepted + [m.bringing[t]]
  {
    if m.consumersWaiting == {} {
      op := PushAgain(t, 0);
    } else {
      var wake :| wake in m.consumersWaiting;
      op := PushAgain(t, wake);
    }
  }

  lemma WakesUp<T>(m: Monitor<T>, t: nat)
    requires ThreadsApart(m) && t in m.producersWaiting
    ensures var m' := Step(m, SpuriousProducer(t)).0;
      && ThreadsApart(m') && t in m'.producersWoken
      && m'.items == m.items && m'.max == m.max && m'.bringing == m.bringing && m'.accepted == m.accepted
  {}

  lemma RunsOn<T(!new)>(m: Monitor<T>, ops: seq<Op<T>>, mid: Monitor<T>, op: Op<T>)
    requires Runs(m, ops, mid) && Can(mid, op)
    ensures Runs(m, ops + [op], Step(mid, op).0)
  {
    var more := ops + [op];
    assert more[..|more| - 1] == ops && more[|more| - 1] == op;
  }

  // A producer still inside when the queue is finished can push after all.
  lemma StragglerPushes<T(!new)>(m: Monitor<T>, t: nat) returns (ops: seq<Op<T>>, m': Monitor<T>)
    requires ThreadsApart(m) && t in m.bringing && |m.items| < m.max
    ensures Runs(m, ops, m') && m'.accepted == m.accepted + [m.bringing[t]]
  {
    ops, m' := [], m;
    assert Runs(m, ops, m');
    if t in m.producersWaiting {
      WakesUp(m, t);
      RunsOn(m, ops, m', SpuriousProducer(t));
      ops, m' := ops + [SpuriousProducer(t)], Step(m', SpuriousProducer(t)).0;
    }
    var op := WokenPushes(m', t);
    RunsOn(m, ops, m', op);
    ops, m' := ops + [op], Step(m', op).0;
  }

  lemma NobodyInside<T>(m: Monitor<T>)
    requires ThreadsApart(m) && m.finished && m.bringing == map[]
    ensures Closed(m)
  {
    assert m.bringing.Keys == {};
  }

  // A false pop is the last word exactly when no producer was left inside: only then can nothing
  // be accepted afterwards, and everything accepted has been delivered for good.
  lemma FalsePopIsFinal<T(!new)>(max: nat, ops: seq<Op<T>>, m: Monitor<T>, op: Op<T>)
    requires Runs(Empty(max), ops, m) && 0 < max
    requires Can(m, op) && (op.Pop? || op.PopAgain?) && Step(m, op).1.Refused?
    ensures m.delivered == m.accepted
    ensures m.bringing == map[] <==> forall more, m' :: Runs(m, more, m') ==> m'.delivered == m'.accepted == m.accepted
  {
    RunKeeps(Empty(max), ops, m);
    assert m.delivered == m.accepted;
    if m.bringing == map[] {
      NobodyInside(m);
      forall more, m' | Runs(m, more, m') ensures m'.delivered == m'.accepted == m.accepted {
        ClosedStaysClosed(m, more, m');
        RunKeeps(m, more, m');
      }
    } else {
      var t :| t in m.bringing;
      var more, m' := StragglerPushes(m, t);
      assert Runs(m, more, m') && m'.accepted != m.accepted;
    }
  }
}
