/** Fair runs end: every thread exits, read failures, write failures and aborts included. */
module Termination {
  import opened Common
  import opened Pipeline
  import opened Frames
  import opened Stages
  import opened Runs
  import opened Session
  import opened Progress
  import Bounds
  import ControlThread
  import Handshake

  // An infinite run without crash, state by state; None is a moment in which nobody moves.
  type Trace = nat -> State

  type Schedule = nat -> Option<Action>

  ghost predicate StepAt(c: Config, run: Trace, act: Schedule, k: nat) {
    match act(k)
    case None => run(k + 1) == run(k)
    case Some(a) => !a.Crash? && Enabled(c, run(k), a) && Next(c, run(k), a) == run(k + 1)
  }

  ghost predicate Execution(c: Config, run: Trace, act: Schedule) {
    forall k: nat :: StepAt(c, run, act, k)
  }

  // A run of a session, the first one or one after a crash.
  ghost predicate Starts(c: Config, s: State) {
    && ValidConfig(c)
    && exists target, f, readTable, readBits :: Startable(c, target, f) && s == Boot(c, target, f, readTable, readBits)
  }

  predicate IsThread(c: Config, who: Who) { who.TheReader? || who.TheWriter? || (who.TheWorker? && who.j < c.workers) }

  // The thread has a step to take. A reader without a buffer has its timeout.
  predicate Willing(c: Config, s: State, who: Who) {
    match who
    case Anyone => false
    case TheReader => ReaderCan(c, s, true)
    case TheWorker(j) => WorkerCan(c, s, j)
    case TheWriter => WriterCan(c, s)
  }

  predicate Moves(act: Schedule, k: nat, who: Who) { act(k).Some? && By(who, act(k).value) }

  predicate MovesThread(act: Schedule, k: nat) { act(k).Some? && ThreadStep(act(k).value) }

  ghost predicate Served(c: Config, run: Trace, act: Schedule, who: Who, k: nat) {
    exists m: nat :: k <= m && (!Willing(c, run(m), who) || Moves(act, m, who))
  }

  // No thread is for ever willing and never moved.
  ghost predicate FairToThreads(c: Config, run: Trace, act: Schedule) {
    forall who, k: nat :: IsThread(c, who) ==> Served(c, run, act, who, k)
  }

  predicate SpinsAt(run: Trace, act: Schedule, k: nat) { act(k).Some? && Spins(run(k), act(k).value) }

  ghost predicate NoSpinsFrom(run: Trace, act: Schedule, from: nat) {
    forall k: nat :: from <= k ==> !SpinsAt(run, act, k)
  }

  // ---------------------------------------------------------------- along the run

  lemma {:induction false} CoreAt(c: Config, run: Trace, act: Schedule, k: nat)
    requires Starts(c, run(0)) && Execution(c, run, act)
    ensures Session.Core(c, run(k))
  {
    if k == 0 {
      var target, f, readTable, readBits :|
        Startable(c, target, f) && run(0) == Boot(c, target, f, readTable, readBits);
      BootKeepsCore(c, target, f, readTable, readBits);
    } else {
      CoreAt(c, run, act, k - 1);
      assert StepAt(c, run, act, k - 1);
      if act(k - 1).Some? { StepKeepsCore(c, run(k - 1), act(k - 1).value); }
    }
  }

  // What is left never grows once nobody looks at a raised pause flag.
  lemma StepsLeftAt(c: Config, run: Trace, act: Schedule, k: nat)
    requires Starts(c, run(0)) && Execution(c, run, act) && !SpinsAt(run, act, k)
    ensures StepsLeft(c, run(k + 1)) <= StepsLeft(c, run(k))
    ensures MovesThread(act, k) ==> StepsLeft(c, run(k + 1)) < StepsLeft(c, run(k))
  {
    CoreAt(c, run, act, k);
    assert StepAt(c, run, act, k);
    if act(k).Some? { StepDecreases(c, run(k), act(k).value); }
  }

  lemma {:induction false} StepsLeftFalls(c: Config, run: Trace, act: Schedule, from: nat, k: nat)
    requires Starts(c, run(0)) && Execution(c, run, act) && NoSpinsFrom(run, act, from) && from <= k
    ensures StepsLeft(c, run(k)) <= StepsLeft(c, run(from))
    decreases k
  {
    if from < k {
      StepsLeftFalls(c, run, act, from, k - 1);
      assert !SpinsAt(run, act, k - 1);
      StepsLeftAt(c, run, act, k - 1);
    }
  }

  ghost predicate NoMovesFrom(act: Schedule, from: nat) { forall k: nat :: from <= k ==> !MovesThread(act, k) }

  // So from some moment on no thread moves any more.
  lemma {:induction false} ThreadsStop(c: Config, run: Trace, act: Schedule, from: nat) returns (stop: nat)
    requires Starts(c, run(0)) && Execution(c, run, act) && NoSpinsFrom(run, act, from)
    ensures NoMovesFrom(act, stop)
    decreases StepsLeft(c, run(from))
  {
    if k: nat :| from <= k && MovesThread(act, k) {
      StepsLeftFalls(c, run, act, from, k);
      assert !SpinsAt(run, act, k);
      StepsLeftAt(c, run, act, k);
      stop := ThreadsStop(c, run, act, k + 1);
    } else {
      stop := from;
    }
  }

  lemma ControlKeepsWilling(c: Config, s: State, s': State, who: Who)
    requires Willing(c, s, who) && ControlFrame(s, s')
    ensures Willing(c, s', who)
  {}

  // While no thread moves, a willing thread stays willing.
  lemma {:induction false} WillingStays(c: Config, run: Trace, act: Schedule, who: Who, from: nat, k: nat)
    requires Execution(c, run, act) && NoMovesFrom(act, from) && from <= k && Willing(c, run(from), who)
    ensures Willing(c, run(k), who)
    decreases k
  {
    if from < k {
      WillingStays(c, run, act, who, from, k - 1);
      assert StepAt(c, run, act, k - 1) && !MovesThread(act, k - 1);
      if act(k - 1).Some? {
        var a := act(k - 1).value;
        ControlFrames(c, run(k - 1), a.choice, a.ok);
        ControlKeepsWilling(c, run(k - 1), run(k), who);
      }
    }
  }

  lemma ReaderWilling(c: Config, s: State)
    requires ValidConfig(c) && Session.Core(c, s) && !s.rd.pc.RDone?
    ensures ReaderCan(c, s, true)
  {
    Bounds.QueuesShort(c, s);
  }

  // Until all threads have exited, one of them has a step to take.
  lemma SomeoneWilling(c: Config, s: State) returns (who: Who)
    requires ValidConfig(c) && Session.Core(c, s) && !AllExited(s)
    ensures IsThread(c, who) && Willing(c, s, who)
  {
    if !s.rd.pc.RDone? {
      who := TheReader;
      ReaderWilling(c, s);
    } else if j: nat :| j < |s.hs.ws| && !s.hs.ws[j].WDone? {
      assert c.hasher;
      Progress.WorkerMoves(c, s, j);
      who := TheWorker(j);
    } else {
      Progress.WriterMoves(c, s);
      who := TheWriter;
    }
  }

  // ---------------------------------------------------------------- termination

  // In every run fair to its threads in which the pause flag is seen raised only finitely often,
  // all threads exit.
  lemma FairRunsEnd(c: Config, run: Trace, act: Schedule, from: nat)
    requires Starts(c, run(0)) && Execution(c, run, act)
    requires FairToThreads(c, run, act) && NoSpinsFrom(run, act, from)
    ensures exists k: nat :: AllExited(run(k))
  {
    var stop := ThreadsStop(c, run, act, from);
    if !AllExited(run(stop)) {
      CoreAt(c, run, act, stop);
      var who := SomeoneWilling(c, run(stop));
      assert Served(c, run, act, who, stop);
      var m: nat :| stop <= m && (!Willing(c, run(m), who) || Moves(act, m, who));
      assert !MovesThread(act, m);
      WillingStays(c, run, act, who, stop, m);
      assert false;
    }
  }

  // ---------------------------------------------------------------- refreshes

  predicate RefreshingAt(run: Trace, k: nat) { ControlThread.Refreshing(run(k).ct.pc) }

  predicate ControlMovesAt(act: Schedule, k: nat) { act(k).Some? && act(k).value.Control? }

  predicate RefreshStartsAt(run: Trace, act: Schedule, k: nat) {
    ControlMovesAt(act, k) && run(k).ct.pc.CIdle? && act(k).value.choice.Refresh?
  }

  ghost predicate RefreshServed(run: Trace, act: Schedule, k: nat) {
    exists m: nat :: k <= m && (!RefreshingAt(run, m) || ControlMovesAt(act, m))
  }

  // A refresh that has begun is not for ever left alone.
  ghost predicate FairToRefresh(run: Trace, act: Schedule) {
    forall k: nat :: RefreshServed(run, act, k)
  }

  ghost predicate NoRefreshFrom(run: Trace, act: Schedule, from: nat) {
    forall k: nat :: from <= k ==> !RefreshStartsAt(run, act, k)
  }

  lemma StepMovesRefresh(c: Config, s: State, a: Action)
    requires Enabled(c, s, a) && !a.Crash? && ControlThread.Refreshing(s.ct.pc)
    ensures a.Control? ==> RefreshLeft(c, Next(c, s, a).ct.pc) < RefreshLeft(c, s.ct.pc)
    ensures !a.Control? ==> Next(c, s, a).ct == s.ct
  {
    match a
    case Reader(fail) => assert ReaderStep(c, s, fail).ct == s.ct;
    case Worker(j) => assert WorkerStep(c, s, j).ct == s.ct;
    case Writer(fail, junk) => assert WriterStep(c, s, fail, junk).ct == s.ct;
    case Control(choice, ok) => RefreshEnds(c, s, choice, ok);
  }

  lemma RefreshAt(c: Config, run: Trace, act: Schedule, k: nat)
    requires Execution(c, run, act) && RefreshingAt(run, k)
    ensures RefreshLeft(c, run(k + 1).ct.pc) <= RefreshLeft(c, run(k).ct.pc)
    ensures ControlMovesAt(act, k) ==> RefreshLeft(c, run(k + 1).ct.pc) < RefreshLeft(c, run(k).ct.pc)
  {
    assert StepAt(c, run, act, k);
    if act(k).Some? { StepMovesRefresh(c, run(k), act(k).value); }
  }

  // From k to m a refresh goes on and gets no longer, or it has ended in between.
  lemma {:induction false} RefreshShrinks(c: Config, run: Trace, act: Schedule, k: nat, m: nat)
    returns (quiet: Option<nat>)
    requires Execution(c, run, act) && k <= m
    ensures quiet.Some? ==> k <= quiet.value && !RefreshingAt(run, quiet.value)
    ensures quiet.None? ==> RefreshingAt(run, m) && RefreshLeft(c, run(m).ct.pc) <= RefreshLeft(c, run(k).ct.pc)
    decreases m
  {
    if !RefreshingAt(run, m) {
      quiet := Some(m);
    } else if k == m {
      quiet := None;
    } else {
      quiet := RefreshShrinks(c, run, act, k, m - 1);
      if quiet.None? { RefreshAt(c, run, act, m - 1); }
    }
  }

  lemma {:induction false} RefreshIsOver(c: Config, run: Trace, act: Schedule, k: nat) returns (quiet: nat)
    requires Execution(c, run, act) && FairToRefresh(run, act)
    ensures k <= quiet && !RefreshingAt(run, quiet)
    decreases RefreshLeft(c, run(k).ct.pc)
  {
    assert RefreshServed(run, act, k);
    var m: nat :| k <= m && (!RefreshingAt(run, m) || ControlMovesAt(act, m));
    var found := RefreshShrinks(c, run, act, k, m);
    if found.Some? {
      quiet := found.value;
    } else {
      RefreshAt(c, run, act, m);
      quiet := RefreshIsOver(c, run, act, m + 1);
    }
  }

  lemma StepStaysQuiet(c: Config, s: State, a: Action)
    requires Enabled(c, s, a) && !a.Crash? && !ControlThread.Refreshing(s.ct.pc)
    requires !(a.Control? && s.ct.pc.CIdle? && a.choice.Refresh?)
    ensures !ControlThread.Refreshing(Next(c, s, a).ct.pc)
  {
    match a
    case Reader(fail) => assert ReaderStep(c, s, fail).ct == s.ct;
    case Worker(j) => assert WorkerStep(c, s, j).ct == s.ct;
    case Writer(fail, junk) => assert WriterStep(c, s, fail, junk).ct == s.ct;
    case Control(choice, ok) => assert ControlStep(c, s, choice, ok).ct.pc == NextPc(c, s, choice, ok);
  }

  // Only a refresh that starts raises the flag again.
  lemma StaysQuiet(c: Config, run: Trace, act: Schedule, k: nat)
    requires Execution(c, run, act) && !RefreshingAt(run, k) && !RefreshStartsAt(run, act, k)
    ensures !RefreshingAt(run, k + 1)
  {
    assert StepAt(c, run, act, k);
    if act(k).Some? { StepStaysQuiet(c, run(k), act(k).value); }
  }

  // Without a refresh the pause flag is down, so the reader takes no pause turn.
  lemma NoPauseTurn(c: Config, run: Trace, act: Schedule, k: nat)
    requires Starts(c, run(0)) && Execution(c, run, act) && !RefreshingAt(run, k)
    ensures !SpinsAt(run, act, k)
  {
    CoreAt(c, run, act, k);
  }

  lemma {:induction false} QuietFrom(c: Config, run: Trace, act: Schedule, from: nat, k: nat)
    requires Starts(c, run(0)) && Execution(c, run, act) && NoRefreshFrom(run, act, from)
    requires !RefreshingAt(run, from) && from <= k
    ensures !RefreshingAt(run, k) && !SpinsAt(run, act, k)
    decreases k
  {
    if from < k {
      QuietFrom(c, run, act, from, k - 1);
      assert !RefreshStartsAt(run, act, k - 1);
      StaysQuiet(c, run, act, k - 1);
    }
    NoPauseTurn(c, run, act, k);
  }

  // In every fair run with finitely many refreshes all threads exit: the flag cannot stay up.
  lemma RunsWithRefreshesEnd(c: Config, run: Trace, act: Schedule, from: nat)
    requires Starts(c, run(0)) && Execution(c, run, act)
    requires FairToThreads(c, run, act) && FairToRefresh(run, act) && NoRefreshFrom(run, act, from)
    ensures exists k: nat :: AllExited(run(k))
  {
    var quiet := RefreshIsOver(c, run, act, from);
    assert NoRefreshFrom(run, act, quiet) by {
      forall k: nat | quiet <= k ensures !RefreshStartsAt(run, act, k) {}
    }
    forall k: nat | quiet <= k ensures !SpinsAt(run, act, k) { QuietFrom(c, run, act, quiet, k); }
    FairRunsEnd(c, run, act, quiet);
  }
}
