/** Blocks in flight: never more than the allocated buffers, and one more after a failed Write,
    whose buffer is freed twice. Both queues therefore stay below their bound. */
module Bounds {
  import opened Common
  import opened Pipeline
  import opened Frames
  import opened WorkerSums
  import opened Stages

  function Allocated(alloc: seq<bool>): nat {
    if alloc == [] then 0 else Allocated(alloc[..|alloc| - 1]) + (if alloc[|alloc| - 1] then 1 else 0)
  }

  lemma {:induction false} AllocatedUpdate(alloc: seq<bool>, k: nat, v: bool)
    requires k < |alloc|
    ensures Allocated(alloc[k := v]) == Allocated(alloc) - (if alloc[k] then 1 else 0) + (if v then 1 else 0)
    decreases |alloc|
  {
    var last := |alloc| - 1;
    if k == last {
      assert alloc[k := v][..last] == alloc[..last];
    } else {
      AllocatedUpdate(alloc[..last], k, v);
      assert alloc[k := v][..last] == alloc[..last][k := v];
    }
  }

  lemma {:induction false} AllocatedBound(alloc: seq<bool>)
    ensures Allocated(alloc) <= |alloc|
    ensures Allocated(alloc) == |alloc| <==> forall k :: 0 <= k < |alloc| ==> alloc[k]
    decreases |alloc|
  {
    if alloc != [] {
      var last := |alloc| - 1;
      AllocatedBound(alloc[..last]);
      if Allocated(alloc) == |alloc| {
        forall k | 0 <= k < |alloc| ensures alloc[k] {
          if k < last { assert alloc[..last][k]; }
        }
      } else if alloc[last] {
        var k :| 0 <= k < last && !alloc[..last][k];
        assert !alloc[k];
      }
    }
  }

  function ReaderHolds(rd: ReaderState): nat { if rd.pc.RRead? || rd.pc.RPush? then 1 else 0 }

  function WriterHolds(wr: WriterState): nat { if wr.pc.NGot? || Finishing(wr.pc) then 1 else 0 }

  function InFlight(c: Config, s: State): nat {
    ReaderHolds(s.rd) + |s.hq.items| + Sum(c, Holding, s.hs.ws) + |s.wq.items| + WriterHolds(s.wr)
  }

  ghost predicate Inv(c: Config, s: State) {
    && Sized(c, s)
    && InFlight(c, s) <= Allocated(s.pool.alloc) + (if s.wr.failed then 1 else 0)
  }

  lemma QueuesShort(c: Config, s: State)
    requires Inv(c, s)
    ensures InFlight(c, s) <= ALLOCATOR_BLOCKS + 1 < QUEUE_SIZE
    ensures CanPush(s.hq) && CanPush(s.wq)
  {
    AllocatedBound(s.pool.alloc);
  }

  lemma ReaderKeeps(c: Config, s: State, fail: bool)
    requires Inv(c, s) && ReaderCan(c, s, fail)
    ensures Inv(c, ReaderStep(c, s, fail))
  {
    ReaderSizes(c, s, fail);
    var slot := FirstFree(s.pool.alloc);
    if s.rd.pc.RFetch? && slot < ALLOCATOR_BLOCKS { AllocatedUpdate(s.pool.alloc, slot, true); }
  }

  lemma WorkerKeeps(c: Config, s: State, j: nat)
    requires Inv(c, s) && WorkerCan(c, s, j)
    ensures Inv(c, WorkerStep(c, s, j))
  {
    var s' := WorkerStep(c, s, j);
    WorkerSizes(c, s, j);
    assert s'.hs.ws == s.hs.ws[j := s'.hs.ws[j]];
    SumUpdate(c, Holding, s.hs.ws, j, s'.hs.ws[j]);
    if s.hs.ws[j].WFree? { AllocatedUpdate(s.pool.alloc, s.hs.ws[j].b.slot, false); }
  }

  lemma WriterFrees(c: Config, s: State, s': State, slot: nat)
    requires Sized(c, s) && Sized(c, s') && slot < ALLOCATOR_BLOCKS && s'.pool.alloc == s.pool.alloc[slot := false]
    ensures Allocated(s'.pool.alloc) >= Allocated(s.pool.alloc) - 1
    ensures Allocated(s'.pool.alloc) <= Allocated(s.pool.alloc)
  {
    AllocatedUpdate(s.pool.alloc, slot, false);
  }

  lemma WriterKeeps(c: Config, s: State, fail: bool, junk: Block)
    requires Inv(c, s) && WriterAt(c, s.hist.loc, s.wr) && WriterCan(c, s)
    ensures Inv(c, WriterStep(c, s, fail, junk))
  {
    var s' := WriterStep(c, s, fail, junk);
    WriterSizes(c, s, fail, junk);
    WriterLeaves(c, s, fail, junk);
    if s'.pool.alloc != s.pool.alloc { WriterFrees(c, s, s', s.wr.pc.b.slot); }
  }

  lemma ControlKeeps(c: Config, s: State, s': State)
    requires Inv(c, s) && ControlFrame(s, s')
    ensures Inv(c, s')
  {}
}
