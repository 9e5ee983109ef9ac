/** Runs put together step by step, possibly of one thread only. */
module Runs {
  import opened Common
  import opened Pipeline
  import opened Frames

  datatype Who = Anyone | TheReader | TheWorker(j: nat) | TheWriter

  predicate By(who: Who, a: Action) {
    match who
    case Anyone => true
    case TheReader => a.Reader?
    case TheWorker(j) => a.Worker? && a.j == j
    case TheWriter => a.Writer?
  }

  lemma Split(c: Config, s: State, steps: seq<Action>, s': State) returns (mid: State)
    requires |steps| > 1 && Reaches(c, s, steps, s')
    ensures Reaches(c, s, steps[..|steps| - 1], mid) && Reaches(c, mid, steps[|steps| - 1..], s')
  {
    var last := |steps| - 1;
    mid :| Reaches(c, s, steps[..last], mid) && Reaches(c, mid, steps[last..], s');
  }

  // What every step of a kind keeps, runs of such steps keep.
  lemma {:induction false} Induct(c: Config, keep: State -> bool, kind: Action -> bool, s: State, steps: seq<Action>,
                                  s': State)
    requires keep(s) && Reaches(c, s, steps, s') && forall k :: 0 <= k < |steps| ==> kind(steps[k])
    requires forall t, a :: keep(t) && kind(a) && Enabled(c, t, a) ==> keep(Next(c, t, a))
    ensures keep(s')
    decreases |steps|
  {
    if |steps| > 1 {
      var mid := Split(c, s, steps, s');
      Induct(c, keep, kind, s, steps[..|steps| - 1], mid);
      Induct(c, keep, kind, mid, steps[|steps| - 1..], s');
    }
  }

  // s' is reached from s through states that satisfy `stays`, both ends included.
  ghost predicate Through(c: Config, stays: State -> bool, s: State, steps: seq<Action>, s': State)
    decreases |steps|
  {
    var last := |steps| - 1;
    && stays(s) && stays(s')
    && if steps == [] then s == s'
       else if last == 0 then Enabled(c, s, steps[0]) && Next(c, s, steps[0]) == s'
       else exists mid :: Through(c, stays, s, steps[..last], mid) && Through(c, stays, mid, steps[last..], s')
  }

  lemma {:induction false} InductThrough(c: Config, keep: State -> bool, stays: State -> bool, s: State,
                                         steps: seq<Action>, s': State)
    requires keep(s) && Through(c, stays, s, steps, s')
    requires forall t, a :: keep(t) && stays(t) && Enabled(c, t, a) && stays(Next(c, t, a)) ==> keep(Next(c, t, a))
    ensures keep(s')
    decreases |steps|
  {
    var last := |steps| - 1;
    if |steps| > 1 {
      var mid :| Through(c, stays, s, steps[..last], mid) && Through(c, stays, mid, steps[last..], s');
      InductThrough(c, keep, stays, s, steps[..last], mid);
      InductThrough(c, keep, stays, mid, steps[last..], s');
    }
  }

  // s' is reached from s by steps of `who` alone.
  ghost predicate LeadsBy(c: Config, who: Who, s: State, s': State) {
    exists steps :: Reaches(c, s, steps, s') && forall k :: 0 <= k < |steps| ==> By(who, steps[k])
  }

  ghost predicate NoCrash(steps: seq<Action>) { forall k :: 0 <= k < |steps| ==> !steps[k].Crash? }

  lemma Stay(c: Config, who: Who, s: State)
    ensures LeadsBy(c, who, s, s)
  {
    assert Reaches(c, s, [], s);
  }

  lemma Join(c: Config, s: State, steps: seq<Action>, mid: State, s': State)
    requires |steps| > 1 && Reaches(c, s, steps[..|steps| - 1], mid) && Reaches(c, mid, steps[|steps| - 1..], s')
    ensures Reaches(c, s, steps, s')
  {}

  lemma ReachesStep(c: Config, s0: State, steps: seq<Action>, s: State, a: Action)
    requires Reaches(c, s0, steps, s) && Enabled(c, s, a)
    ensures Reaches(c, s0, steps + [a], Next(c, s, a))
  {
    var s', more := Next(c, s, a), steps + [a];
    assert Reaches(c, s, [a], s');
    if steps == [] {
      assert more == [a];
    } else {
      assert more[..|more| - 1] == steps && more[|more| - 1..] == [a];
      Join(c, s0, more, s, s');
    }
  }

  lemma Step(c: Config, who: Who, s0: State, s: State, a: Action) returns (s': State)
    requires LeadsBy(c, who, s0, s) && Enabled(c, s, a) && By(who, a)
    ensures s' == Next(c, s, a) && LeadsBy(c, who, s0, s')
  {
    s' := Next(c, s, a);
    var steps :| Reaches(c, s0, steps, s) && forall k :: 0 <= k < |steps| ==> By(who, steps[k]);
    ReachesStep(c, s0, steps, s, a);
  }

  lemma ReaderMoves(c: Config, who: Who, s0: State, s: State, fail: bool) returns (s': State)
    requires LeadsBy(c, who, s0, s) && ReaderCan(c, s, fail) && (who.Anyone? || who.TheReader?)
    ensures s' == ReaderStep(c, s, fail) && LeadsBy(c, who, s0, s') && Sized(c, s')
  {
    ReaderSizes(c, s, fail);
    s' := Step(c, who, s0, s, Reader(fail));
  }

  lemma WorkerMoves(c: Config, who: Who, s0: State, s: State, j: nat) returns (s': State)
    requires LeadsBy(c, who, s0, s) && WorkerCan(c, s, j) && (who.Anyone? || who == TheWorker(j))
    ensures s' == WorkerStep(c, s, j) && LeadsBy(c, who, s0, s') && Sized(c, s')
  {
    WorkerSizes(c, s, j);
    s' := Step(c, who, s0, s, Worker(j));
  }

  lemma WriterMoves(c: Config, who: Who, s0: State, s: State, fail: bool, junk: Block) returns (s': State)
    requires LeadsBy(c, who, s0, s) && Enabled(c, s, Writer(fail, junk)) && (who.Anyone? || who.TheWriter?)
    ensures s' == WriterStep(c, s, fail, junk) && LeadsBy(c, who, s0, s') && Sized(c, s')
  {
    WriterSizes(c, s, fail, junk);
    s' := Step(c, who, s0, s, Writer(fail, junk));
  }

  lemma {:induction false} Follow(c: Config, who: Who, s: State, mid: State, steps: seq<Action>, s': State)
    requires LeadsBy(c, who, s, mid) && Reaches(c, mid, steps, s')
    requires forall k :: 0 <= k < |steps| ==> By(who, steps[k])
    ensures LeadsBy(c, who, s, s')
    decreases |steps|
  {
    if |steps| == 1 {
      var next := Step(c, who, s, mid, steps[0]);
    } else if |steps| > 1 {
      var m := Split(c, mid, steps, s');
      Follow(c, who, s, mid, steps[..|steps| - 1], m);
      Follow(c, who, s, m, steps[|steps| - 1..], s');
    }
  }

  lemma Chain(c: Config, who: Who, s: State, mid: State, s': State)
    requires LeadsBy(c, who, s, mid) && LeadsBy(c, who, mid, s')
    ensures LeadsBy(c, who, s, s')
  {
    var steps :| Reaches(c, mid, steps, s') && forall k :: 0 <= k < |steps| ==> By(who, steps[k]);
    Follow(c, who, s, mid, steps, s');
  }
}
