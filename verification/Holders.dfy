/** Every allocated buffer is in somebody's hands, even after a failed Write has freed one twice;
    only a reader that failed to read leaves its buffer behind. */
module Holders {
  import opened Common
  import opened Pipeline
  import opened Frames
  import opened Stages
  import Handshake

  ghost predicate QueueHolds(q: seq<Item>, k: nat) { exists l :: 0 <= l < |q| && q[l].slot == k }

  ghost predicate WorkersHold(ws: seq<WorkerPc>, k: nat) {
    exists j :: 0 <= j < |ws| && HasItem(ws[j]) && ws[j].b.slot == k
  }

  predicate ReaderHolds(rd: ReaderState, k: nat) { (rd.pc.RRead? || rd.pc.RPush?) && rd.pc.slot == k }

  predicate WriterHolds(wr: WriterState, k: nat) { (wr.pc.NGot? || Finishing(wr.pc)) && wr.pc.b.slot == k }

  ghost predicate Held(s: State, k: nat) {
    || ReaderHolds(s.rd, k)
    || QueueHolds(s.hq.items, k)
    || WorkersHold(s.hs.ws, k)
    || QueueHolds(s.wq.items, k)
    || WriterHolds(s.wr, k)
  }

  ghost predicate Inv(c: Config, s: State) {
    Sized(c, s) && (s.rd.status.Failed? || forall k: nat :: k < ALLOCATOR_BLOCKS && s.pool.alloc[k] ==> Held(s, k))
  }

  lemma PushedHolds(q: seq<Item>, b: Item, k: nat)
    ensures QueueHolds(q + [b], k) <==> QueueHolds(q, k) || b.slot == k
  {
    var q' := q + [b];
    assert q'[|q|] == b;
    if QueueHolds(q, k) {
      var l :| 0 <= l < |q| && q[l].slot == k;
      assert q'[l].slot == k;
    }
  }

  lemma PoppedHolds(q: seq<Item>, k: nat)
    requires q != [] && QueueHolds(q, k)
    ensures q[0].slot == k || QueueHolds(q[1..], k)
  {
    var l :| 0 <= l < |q| && q[l].slot == k;
    if l > 0 { assert q[1..][l - 1].slot == k; }
  }

  lemma AdvancedHolds(ws: seq<WorkerPc>, j: nat, w: WorkerPc, k: nat)
    requires j < |ws|
    requires WorkersHold(ws, k)
    ensures (HasItem(ws[j]) && ws[j].b.slot == k && !(HasItem(w) && w.b.slot == k)) || WorkersHold(ws[j := w], k)
  {
    var i :| 0 <= i < |ws| && HasItem(ws[i]) && ws[i].b.slot == k;
    if i != j { assert ws[j := w][i] == ws[i]; } else if HasItem(w) { assert ws[j := w][j] == w; }
  }

  // What a step of the reader leaves allocated is held after it.
  lemma ReaderHeld(c: Config, s: State, fail: bool, k: nat)
    requires ReaderCan(c, s, fail) && Handshake.ReaderShut(c, s) && k < ALLOCATOR_BLOCKS
    requires s.pool.alloc[k] ==> Held(s, k)
    ensures var s' := ReaderStep(c, s, fail);
      |s'.pool.alloc| == ALLOCATOR_BLOCKS && (s'.rd.status.Failed? || (s'.pool.alloc[k] ==> Held(s', k)))
  {
    if s.rd.pc.RPush? {
      PushedHolds(s.hq.items, Item(s.rd.pc.slot, s.rd.cur), k);
      PushedHolds(s.wq.items, Item(s.rd.pc.slot, s.rd.cur), k);
    }
  }

  lemma ReaderKeeps(c: Config, s: State, fail: bool)
    requires Inv(c, s) && Handshake.Inv(c, s) && ReaderCan(c, s, fail)
    ensures Inv(c, ReaderStep(c, s, fail))
  {
    ReaderSizes(c, s, fail);
    var s' := ReaderStep(c, s, fail);
    if !s'.rd.status.Failed? {
      forall k: nat | k < ALLOCATOR_BLOCKS && s'.pool.alloc[k] ensures Held(s', k) { ReaderHeld(c, s, fail, k); }
    }
  }

  lemma WorkerHeld(c: Config, s: State, j: nat, k: nat)
    requires WorkerCan(c, s, j) && k < ALLOCATOR_BLOCKS && (s.hs.ws[j].WPush? ==> !s.wq.finished)
    requires s.pool.alloc[k] ==> Held(s, k)
    ensures var s' := WorkerStep(c, s, j);
      |s'.pool.alloc| == ALLOCATOR_BLOCKS && (s'.pool.alloc[k] ==> Held(s', k))
  {
    var s' := WorkerStep(c, s, j);
    var w' := s'.hs.ws[j];
    assert s'.hs.ws == s.hs.ws[j := w'] && s'.rd == s.rd && s'.wr == s.wr;
    if WorkersHold(s.hs.ws, k) { AdvancedHolds(s.hs.ws, j, w', k); }
    match s.hs.ws[j] {
      case WPop =>
        if s.hq.items != [] && QueueHolds(s.hq.items, k) {
          PoppedHolds(s.hq.items, k);
          assert s'.hs.ws[j] == WHash(s.hq.items[0]);
        }
      case WPush(b) => PushedHolds(s.wq.items, b, k);
      case _ => assert s'.hq == s.hq && s'.wq.items == s.wq.items;
    }
  }

  lemma WorkerKeeps(c: Config, s: State, j: nat)
    requires Inv(c, s) && WorkerCan(c, s, j) && (s.hs.ws[j].WPush? ==> !s.wq.finished)
    ensures Inv(c, WorkerStep(c, s, j))
  {
    WorkerSizes(c, s, j);
    var s' := WorkerStep(c, s, j);
    assert s'.rd == s.rd;
    if !s.rd.status.Failed? {
      forall k: nat | k < ALLOCATOR_BLOCKS && s'.pool.alloc[k] ensures Held(s', k) { WorkerHeld(c, s, j, k); }
    }
  }

  lemma WriterHeld(c: Config, s: State, fail: bool, junk: Block, k: nat)
    requires WriterCan(c, s) && k < ALLOCATOR_BLOCKS && (Finishing(s.wr.pc) ==> InRange(c, s.wr.pc.b))
    requires s.pool.alloc[k] ==> Held(s, k)
    ensures var s' := WriterStep(c, s, fail, junk);
      |s'.pool.alloc| == ALLOCATOR_BLOCKS && (s'.pool.alloc[k] ==> Held(s', k))
  {
    if s.wr.pc.NPop? && s.wq.items != [] && QueueHolds(s.wq.items, k) { PoppedHolds(s.wq.items, k); }
  }

  lemma WriterKeeps(c: Config, s: State, fail: bool, junk: Block)
    requires Inv(c, s) && Stages.Inv(c, s) && WriterCan(c, s)
    ensures Inv(c, WriterStep(c, s, fail, junk))
  {
    WriterSizes(c, s, fail, junk);
    var s' := WriterStep(c, s, fail, junk);
    assert s'.rd == s.rd;
    if !s.rd.status.Failed? {
      forall k: nat | k < ALLOCATOR_BLOCKS && s'.pool.alloc[k] ensures Held(s', k) { WriterHeld(c, s, fail, junk, k); }
    }
  }

  lemma ControlKeeps(c: Config, s: State, s': State)
    requires Inv(c, s) && ControlFrame(s, s')
    ensures Inv(c, s')
  {
    assert forall k: nat :: Held(s, k) ==> Held(s', k);
  }
}
