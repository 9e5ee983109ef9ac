/** Where every block is: each index sits in exactly one place, and each place holds what
    the history says it holds. */
module Stages {
  import opened Common
  import opened Pipeline
  import opened Frames

  predicate Done(l: Loc) { l.Restored? || l.Dropped? || l.Written? }

  predicate HasItem(w: WorkerPc) { w.WHash? || w.WCompare? || w.WFree? || w.WCharge? || w.WPush? }

  // The writer between the Write and the end of the block.
  predicate Finishing(n: WriterPc) { n.NFail? || n.NSetW? || n.NLoad? || n.NStore? || n.NFree? }

  predicate Unread(l: Loc) { l.Todo? || l.Restored? }

  // ---------------------------------------------------------------- queues

  ghost predicate Queued(q: seq<Item>, i: nat) { exists k :: 0 <= k < |q| && q[k].index == i }

  // The queue holds exactly the blocks at `at`, each once.
  ghost predicate QueueAt(c: Config, loc: seq<Loc>, q: seq<Item>, at: Loc)
    requires |loc| == c.n
  {
    && (forall k :: 0 <= k < |q| ==> InRange(c, q[k]) && loc[q[k].index] == at)
    && (forall k, l :: 0 <= k < l < |q| ==> q[k].index != q[l].index)
    && (forall i :: 0 <= i < c.n && loc[i] == at ==> Queued(q, i))
  }

  lemma QueueMoveElsewhere(c: Config, loc: seq<Loc>, q: seq<Item>, at: Loc, i: nat, to: Loc)
    requires |loc| == c.n && QueueAt(c, loc, q, at) && i < c.n && loc[i] != at && to != at
    ensures QueueAt(c, loc[i := to], q, at)
  {}

  lemma QueuePush(c: Config, loc: seq<Loc>, q: seq<Item>, at: Loc, b: Item)
    requires |loc| == c.n && QueueAt(c, loc, q, at) && InRange(c, b) && loc[b.index] != at
    ensures QueueAt(c, loc[b.index := at], q + [b], at)
  {
    var q' := q + [b];
    assert q'[|q|] == b;
    forall i | 0 <= i < c.n && loc[b.index := at][i] == at ensures Queued(q', i) {
      if i != b.index {
        var k :| 0 <= k < |q| && q[k].index == i;
        assert q'[k].index == i;
      }
    }
  }

  lemma QueuePop(c: Config, loc: seq<Loc>, q: seq<Item>, at: Loc, to: Loc)
    requires |loc| == c.n && QueueAt(c, loc, q, at) && q != [] && to != at
    ensures QueueAt(c, loc[q[0].index := to], q[1..], at)
  {
    var loc', q' := loc[q[0].index := to], q[1..];
    forall i | 0 <= i < c.n && loc'[i] == at ensures Queued(q', i) {
      var k :| 0 <= k < |q| && q[k].index == i;
      assert k != 0 && q'[k - 1].index == i;
    }
  }

  lemma QueueHead(c: Config, loc: seq<Loc>, q: seq<Item>, at: Loc)
    requires |loc| == c.n && QueueAt(c, loc, q, at)
    ensures q == [] || (InRange(c, q[0]) && loc[q[0].index] == at)
  {}

  // ---------------------------------------------------------------- threads

  // Everything before the reader's position has been taken, everything behind it has not.
  ghost predicate ReaderAt(c: Config, loc: seq<Loc>, rd: ReaderState, restored: set<nat>)
    requires |loc| == c.n
  {
    && rd.cur <= c.n
    && (forall i :: 0 <= i < rd.cur ==> !loc[i].Todo? && !loc[i].AtReader?)
    && (forall i :: rd.cur < i < c.n ==> Unread(loc[i]))
    && (rd.cur < c.n ==>
          match rd.pc
          case RCheck => Unread(loc[rd.cur])
          case RPause => Unread(loc[rd.cur])
          case RSkip => Unread(loc[rd.cur])
          case RFetch => loc[rd.cur].Todo?
          case RRead(slot) => loc[rd.cur].AtReader? && slot < ALLOCATOR_BLOCKS
          case RPush(slot) => loc[rd.cur].AtReader? && slot < ALLOCATOR_BLOCKS
          case RCount => !loc[rd.cur].Todo? && !loc[rd.cur].AtReader?
          case _ => Unread(loc[rd.cur]) || loc[rd.cur].AtReader?)
    && (rd.cur == c.n ==> rd.pc.RCheck? || rd.pc.RFin? || rd.pc.RDone?)
    && (forall i :: i in restored ==> 0 <= i < c.n)
    && (forall i :: 0 <= i < c.n ==> (loc[i].Restored? <==> i in restored))
  }

  ghost predicate WorkersAt(c: Config, loc: seq<Loc>, ws: seq<WorkerPc>)
    requires |loc| == c.n
  {
    && (forall j :: 0 <= j < |ws| && HasItem(ws[j]) ==> InRange(c, ws[j].b) && loc[ws[j].b.index] == AtWorker(j))
    && (forall j :: 0 <= j < |ws| && (ws[j].WLoad? || ws[j].WStore?) ==> ws[j].i < c.n && loc[ws[j].i].Dropped?)
    && (forall i :: 0 <= i < c.n && loc[i].AtWorker? ==>
          loc[i].j < |ws| && HasItem(ws[loc[i].j]) && ws[loc[i].j].b.index == i)
  }

  ghost predicate WriterAt(c: Config, loc: seq<Loc>, wr: WriterState)
    requires |loc| == c.n
  {
    && (wr.pc.NGot? ==> InRange(c, wr.pc.b) && loc[wr.pc.b.index].AtWriter?)
    && (Finishing(wr.pc) ==> InRange(c, wr.pc.b) && loc[wr.pc.b.index].Written?)
    && (wr.pc.NCount? ==> wr.pc.i < c.n && loc[wr.pc.i].Written?)
    && (forall i :: 0 <= i < c.n && loc[i].AtWriter? ==> wr.pc.NGot? && wr.pc.b.index == i)
    && (forall i :: 0 <= i < c.n && loc[i].Lost? ==> wr.failed)
    && (wr.failed ==> wr.fails > 0)
    && (wr.pc.NFail? ==> !wr.failed)
  }

  // Where the pushes and the pops take a block.
  predicate Inner(l: Loc) { l.AtReader? || l.AtHashQueue? || l.AtWorker? || l.AtWriteQueue? || l.AtWriter? }

  lemma ReaderMoveBehind(c: Config, loc: seq<Loc>, rd: ReaderState, restored: set<nat>, i: nat, to: Loc)
    requires |loc| == c.n && ReaderAt(c, loc, rd, restored) && i < c.n
    requires Inner(loc[i]) && !loc[i].AtReader?
    requires !to.Todo? && !to.Restored? && !to.AtReader?
    ensures ReaderAt(c, loc[i := to], rd, restored)
  {}

  lemma WorkersMoveElsewhere(c: Config, loc: seq<Loc>, ws: seq<WorkerPc>, i: nat, to: Loc)
    requires |loc| == c.n && WorkersAt(c, loc, ws) && i < c.n
    requires !loc[i].AtWorker? && !loc[i].Dropped? && !to.AtWorker?
    ensures WorkersAt(c, loc[i := to], ws)
  {}

  lemma WriterMoveElsewhere(c: Config, loc: seq<Loc>, wr: WriterState, i: nat, to: Loc)
    requires |loc| == c.n && WriterAt(c, loc, wr) && i < c.n
    requires !loc[i].AtWriter? && !loc[i].Written? && !to.AtWriter? && !to.Lost?
    ensures WriterAt(c, loc[i := to], wr)
  {}

  // ---------------------------------------------------------------- bits

  // Bits never lie about a block that is not done, whatever stores have been lost.
  ghost predicate Truthful(c: Config, loc: seq<Loc>, x: set<nat>)
    requires |loc| == c.n
  {
    forall i :: i in x ==> 0 <= i < c.n && Done(loc[i])
  }

  // A byte loaded by a Set in progress: truthful, from one byte, and with the restored bits.
  ghost predicate LoadedByte(c: Config, loc: seq<Loc>, restored: set<nat>, i: nat, x: set<nat>)
    requires |loc| == c.n
  {
    && Truthful(c, loc, x)
    && (forall k :: k in x ==> k / 8 == i / 8)
    && ByteOf(restored, i / 8) <= x
  }

  ghost predicate BitsAt(c: Config, s: State)
    requires |s.hist.loc| == c.n
  {
    && Truthful(c, s.hist.loc, s.bits.processed)
    && s.hist.restored <= s.bits.processed
    && (!c.checkpoint ==> s.hist.restored == {})
    && (forall i :: i in s.bits.written ==> 0 <= i < c.n)
    && (forall j :: 0 <= j < |s.hs.ws| && s.hs.ws[j].WStore? ==>
          LoadedByte(c, s.hist.loc, s.hist.restored, s.hs.ws[j].i, s.hs.ws[j].bits))
    && (s.wr.pc.NStore? ==> LoadedByte(c, s.hist.loc, s.hist.restored, s.wr.pc.b.index, s.wr.pc.bits))
  }

  lemma LoadIsTruthful(c: Config, s: State, i: nat)
    requires |s.hist.loc| == c.n && BitsAt(c, s)
    ensures LoadedByte(c, s.hist.loc, s.hist.restored, i, ByteOf(s.bits.processed, i / 8))
  {}

  // A store may lose bits other threads have set since the load, but only of blocks done in
  // this run, and it invents none.
  lemma StoreIsTruthful(c: Config, loc: seq<Loc>, restored: set<nat>, x: set<nat>, i: nat, loaded: set<nat>)
    requires |loc| == c.n && Truthful(c, loc, x) && restored <= x
    requires LoadedByte(c, loc, restored, i, loaded)
    requires i < c.n && Done(loc[i])
    ensures Truthful(c, loc, StoreByte(x, i, loaded))
    ensures restored <= StoreByte(x, i, loaded)
    ensures i in StoreByte(x, i, loaded)
  {}

  lemma TruthfulMove(c: Config, loc: seq<Loc>, i: nat, to: Loc, x: set<nat>)
    requires |loc| == c.n && Truthful(c, loc, x) && i < c.n && !Done(loc[i])
    ensures Truthful(c, loc[i := to], x)
  {}

  lemma BitsMove(c: Config, s: State, s': State, i: nat, to: Loc)
    requires |s.hist.loc| == c.n && BitsAt(c, s) && i < c.n && !Done(s.hist.loc[i])
    requires s'.hist.loc == s.hist.loc[i := to] && s'.hist.restored == s.hist.restored && s'.bits == s.bits
    requires forall j :: 0 <= j < |s'.hs.ws| && s'.hs.ws[j].WStore? ==> j < |s.hs.ws| && s.hs.ws[j] == s'.hs.ws[j]
    requires s'.wr.pc.NStore? ==> s'.wr.pc == s.wr.pc
    ensures BitsAt(c, s')
  {
    forall j | 0 <= j < |s'.hs.ws| && s'.hs.ws[j].WStore?
      ensures LoadedByte(c, s'.hist.loc, s'.hist.restored, s'.hs.ws[j].i, s'.hs.ws[j].bits)
    {
      TruthfulMove(c, s.hist.loc, i, to, s.hs.ws[j].bits);
    }
  }

  // ---------------------------------------------------------------- the invariant

  ghost predicate Inv(c: Config, s: State) {
    && Sized(c, s)
    && QueueAt(c, s.hist.loc, s.hq.items, AtHashQueue)
    && QueueAt(c, s.hist.loc, s.wq.items, AtWriteQueue)
    && ReaderAt(c, s.hist.loc, s.rd, s.hist.restored)
    && WorkersAt(c, s.hist.loc, s.hs.ws)
    && WriterAt(c, s.hist.loc, s.wr)
    && BitsAt(c, s)
  }
}
