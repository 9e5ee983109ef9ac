/** What the target, the checksum table and the checkpoint files hold. */
module Durability {
  import opened Common
  import opened Pipeline
  import opened Frames
  import opened Stages
  import Handshake
  import Ownership

  // Where digests are compared, their offsets fit in 32 bits.
  ghost predicate Comparable(c: Config) { c.mode.Diff? ==> CHECKSUM_SIZE * c.n <= TWO32 }

  ghost predicate SameDigest(c: Config, i: nat)
    requires i < c.n && |c.vol| == |c.prev| == c.n
  {
    c.mode.Diff? && c.prev[i] == c.digest(c.vol[i])
  }

  // The blocks a session never writes: those dropped as unchanged and, with skipEmptyBlock, the empty ones.
  ghost predicate Keeps(c: Config, i: nat)
    requires i < c.n && |c.vol| == |c.prev| == c.n
  {
    SameDigest(c, i) || !NeedToWrite(c.skipEmpty, c.vol[i])
  }

  // What a session leaves in block i.
  ghost function Target(c: Config, i: nat): Block
    requires i < c.n && |c.vol| == |c.prev| == |c.base| == c.n
  {
    if Keeps(c, i) then c.base[i] else c.vol[i]
  }

  // ---------------------------------------------------------------- memory

  ghost predicate KeptBlocks(c: Config, s: State)
    requires ValidConfig(c) && Sized(c, s)
  {
    forall i :: 0 <= i < c.n && Keeps(c, i) ==> s.copy[i] == c.base[i] && s.files.disk[i] == c.base[i]
  }

  // What the comparison decided was decided on the right digests.
  ghost predicate DecidedAt(c: Config, loc: seq<Loc>, ws: seq<WorkerPc>)
    requires ValidConfig(c) && |loc| == c.n
  {
    && (forall i :: 0 <= i < c.n && (loc[i].AtWriteQueue? || loc[i].AtWriter?) ==> !SameDigest(c, i))
    && (forall j :: 0 <= j < |ws| && HasItem(ws[j]) && ws[j].b.index < c.n ==>
          && ((ws[j].WCharge? || ws[j].WPush?) ==> !SameDigest(c, ws[j].b.index))
          && (ws[j].WFree? ==> SameDigest(c, ws[j].b.index)))
  }

  predicate PastHashing(l: Loc) { Done(l) || l.AtWriteQueue? || l.AtWriter? }

  // The table holds the digest of every block that has been hashed.
  ghost predicate HashedAt(c: Config, loc: seq<Loc>, table: seq<Digest>)
    requires ValidConfig(c) && |loc| == |table| == c.n
  {
    forall i :: 0 <= i < c.n && PastHashing(loc[i]) ==> table[i] == c.digest(c.vol[i])
  }

  ghost predicate WorkersHashed(c: Config, ws: seq<WorkerPc>, table: seq<Digest>)
    requires ValidConfig(c) && |table| == c.n
  {
    forall j :: 0 <= j < |ws| && HasItem(ws[j]) && !ws[j].WHash? && ws[j].b.index < c.n ==>
      table[ws[j].b.index] == c.digest(c.vol[ws[j].b.index])
  }

  ghost predicate DoneAt(c: Config, loc: seq<Loc>, copy: seq<Block>)
    requires ValidConfig(c) && |loc| == |copy| == c.n
  {
    forall i :: 0 <= i < c.n && Done(loc[i]) ==> copy[i] == Target(c, i)
  }

  ghost predicate Memory(c: Config, s: State)
    requires ValidConfig(c) && Sized(c, s)
  {
    && KeptBlocks(c, s)
    && (!s.wr.failed ==> DecidedAt(c, s.hist.loc, s.hs.ws))
    && (c.hasher && (!s.wr.failed || !s.hist.hashBad) ==> WorkersHashed(c, s.hs.ws, s.table))
    && (s.wr.failed || s.wr.pc.NFail? ==> s.hist.memBad)
    && (!s.hist.memBad ==> DoneAt(c, s.hist.loc, s.copy))
    && (c.hasher && !s.hist.hashBad ==> HashedAt(c, s.hist.loc, s.table))
  }

  // Every block of the target keeps its length, whatever fails or is torn.
  ghost predicate LengthsKept(c: Config, s: State) {
    && Sized(c, s)
    && forall i :: 0 <= i < c.n ==> |s.copy[i]| == |s.files.disk[i]| == |c.vol[i]|
  }

  lemma WriterKeepsLengths(c: Config, s: State, fail: bool, junk: Block)
    requires LengthsKept(c, s) && WriterCan(c, s) && (s.wr.pc.NGot? && fail ==> |junk| == |c.vol[s.wr.pc.b.index]|)
    requires s.wr.pc.NGot? && !s.wr.failed ==> Ownership.Owned(c, s.pool, s.wr.pc.b)
    ensures LengthsKept(c, WriterStep(c, s, fail, junk))
  {
    WriterSizes(c, s, fail, junk);
    assert WriterStep(c, s, fail, junk).files.disk == s.files.disk;
  }

  // ---------------------------------------------------------------- how a block or a worker moves on

  lemma DecidedMove(c: Config, loc: seq<Loc>, ws: seq<WorkerPc>, i: nat, to: Loc, j: nat, w: WorkerPc)
    requires ValidConfig(c) && |loc| == c.n && DecidedAt(c, loc, ws) && i < c.n && j < |ws|
    requires to.AtWriteQueue? || to.AtWriter? ==> !SameDigest(c, i)
    requires HasItem(w) ==> w.WHash?
    ensures DecidedAt(c, loc[i := to], ws[j := w])
  {}

  lemma DecidedAdvance(c: Config, loc: seq<Loc>, ws: seq<WorkerPc>, j: nat, w: WorkerPc)
    requires ValidConfig(c) && |loc| == c.n && DecidedAt(c, loc, ws) && j < |ws|
    requires w.WCharge? || w.WPush? ==> w.b.index < c.n && !SameDigest(c, w.b.index)
    requires w.WFree? ==> w.b.index < c.n && SameDigest(c, w.b.index)
    ensures DecidedAt(c, loc, ws[j := w])
  {}

  lemma HashedMove(c: Config, loc: seq<Loc>, table: seq<Digest>, i: nat, to: Loc)
    requires ValidConfig(c) && |loc| == |table| == c.n && HashedAt(c, loc, table) && i < c.n
    requires PastHashing(to) ==> table[i] == c.digest(c.vol[i])
    ensures HashedAt(c, loc[i := to], table)
  {}

  lemma HashedAdvance(c: Config, ws: seq<WorkerPc>, table: seq<Digest>, j: nat, w: WorkerPc)
    requires ValidConfig(c) && |table| == c.n && WorkersHashed(c, ws, table) && j < |ws|
    requires HasItem(w) && !w.WHash? ==> w.b.index < c.n && table[w.b.index] == c.digest(c.vol[w.b.index])
    ensures WorkersHashed(c, ws[j := w], table)
  {}

  lemma HashedStore(c: Config, loc: seq<Loc>, ws: seq<WorkerPc>, table: seq<Digest>, i: nat)
    requires ValidConfig(c) && |loc| == |table| == c.n && i < c.n
    ensures var table' := table[i := c.digest(c.vol[i])];
      && (HashedAt(c, loc, table) ==> HashedAt(c, loc, table'))
      && (WorkersHashed(c, ws, table) ==> WorkersHashed(c, ws, table'))
  {}

  lemma DoneMove(c: Config, loc: seq<Loc>, copy: seq<Block>, i: nat, to: Loc)
    requires ValidConfig(c) && |loc| == |copy| == c.n && DoneAt(c, loc, copy) && i < c.n
    requires Done(to) ==> copy[i] == Target(c, i)
    ensures DoneAt(c, loc[i := to], copy)
  {}

  // ---------------------------------------------------------------- reader

  lemma ReaderMovesMemory(c: Config, s: State, s': State, i: nat, to: Loc)
    requires ValidConfig(c) && Sized(c, s) && Sized(c, s') && Memory(c, s) && i < c.n
    requires s'.hs == s.hs && s'.wr == s.wr && s'.table == s.table && s'.copy == s.copy && s'.files == s.files
    requires SameTaint(s.hist, s'.hist) && s'.hist.loc == s.hist.loc[i := to]
    requires HandedOut(c, to)
    ensures Memory(c, s')
  {}

  lemma ReaderKeepsMemory(c: Config, s: State, fail: bool)
    requires ValidConfig(c) && Stages.Inv(c, s) && Handshake.Inv(c, s) && Memory(c, s) && ReaderCan(c, s, fail)
    ensures Sized(c, ReaderStep(c, s, fail)) && Memory(c, ReaderStep(c, s, fail))
  {
    ReaderSizes(c, s, fail);
    ReaderEffect(c, s, fail);
    var s', i := ReaderStep(c, s, fail), s.rd.cur;
    if s'.hist.loc != s.hist.loc { ReaderMovesMemory(c, s, s', i, s'.hist.loc[i]); }
  }

  // ---------------------------------------------------------------- workers

  lemma WorkerAdvancesDecided(c: Config, s: State, j: nat)
    requires ValidConfig(c) && Comparable(c) && WorkerCan(c, s, j) && WorkersAt(c, s.hist.loc, s.hs.ws)
    requires DecidedAt(c, s.hist.loc, s.hs.ws) && WorkersHashed(c, s.hs.ws, s.table)
    requires !s.hs.ws[j].WFree? && !s.hs.ws[j].WPush? && !(s.hs.ws[j].WPop? && s.hq.items != [])
    ensures var s' := WorkerStep(c, s, j); s'.hist.loc == s.hist.loc && DecidedAt(c, s'.hist.loc, s'.hs.ws)
  {
    DecidedAdvance(c, s.hist.loc, s.hs.ws, j, WorkerStep(c, s, j).hs.ws[j]);
  }

  lemma WorkerKeepsDecided(c: Config, s: State, j: nat)
    requires ValidConfig(c) && Comparable(c) && WorkerCan(c, s, j) && WorkersAt(c, s.hist.loc, s.hs.ws)
    requires DecidedAt(c, s.hist.loc, s.hs.ws) && WorkersHashed(c, s.hs.ws, s.table)
    requires s.hs.ws[j].WPush? ==> !s.wq.finished
    ensures Sized(c, WorkerStep(c, s, j)) && DecidedAt(c, WorkerStep(c, s, j).hist.loc, WorkerStep(c, s, j).hs.ws)
  {
    WorkerSizes(c, s, j);
    var loc, ws, w := s.hist.loc, s.hs.ws, WorkerStep(c, s, j).hs.ws[j];
    if ws[j].WFree? {
      DecidedMove(c, loc, ws, ws[j].b.index, Dropped, j, w);
    } else if ws[j].WPush? {
      DecidedMove(c, loc, ws, ws[j].b.index, AtWriteQueue, j, w);
    } else if ws[j].WPop? && s.hq.items != [] {
      DecidedMove(c, loc, ws, s.hq.items[0].index, AtWorker(j), j, w);
    } else {
      WorkerAdvancesDecided(c, s, j);
    }
  }

  // A worker about to hash has the bytes of its block, or others with the same digest.
  predicate HashesItsOwn(c: Config, s: State, j: nat)
    requires WorkerCan(c, s, j)
  {
    s.hs.ws[j].WHash? ==> c.digest(s.pool.buf[s.hs.ws[j].b.slot]) == c.digest(c.vol[s.hs.ws[j].b.index])
  }

  // A digest goes into the table before it is compared or its block handed on.
  lemma WorkerKeepsHashed(c: Config, s: State, j: nat)
    requires ValidConfig(c) && WorkerCan(c, s, j) && WorkersAt(c, s.hist.loc, s.hs.ws)
    requires WorkersHashed(c, s.hs.ws, s.table) && HashesItsOwn(c, s, j)
    requires s.hs.ws[j].WPush? ==> !s.wq.finished
    ensures Sized(c, WorkerStep(c, s, j))
    ensures var s' := WorkerStep(c, s, j);
      && WorkersHashed(c, s'.hs.ws, s'.table)
      && (HashedAt(c, s.hist.loc, s.table) ==> HashedAt(c, s'.hist.loc, s'.table))
  {
    WorkerSizes(c, s, j);
    var loc, ws, table, w := s.hist.loc, s.hs.ws, s.table, WorkerStep(c, s, j).hs.ws[j];
    match ws[j] {
      case WPop =>
        HashedAdvance(c, ws, table, j, w);
        if s.hq.items != [] && HashedAt(c, loc, table) { HashedMove(c, loc, table, s.hq.items[0].index, AtWorker(j)); }
      case WHash(b) =>
        HashedStore(c, loc, ws, table, b.index);
        HashedAdvance(c, ws, table[b.index := c.digest(c.vol[b.index])], j, w);
      case WFree(b) =>
        HashedAdvance(c, ws, table, j, w);
        if HashedAt(c, loc, table) { HashedMove(c, loc, table, b.index, Dropped); }
      case WPush(b) =>
        HashedAdvance(c, ws, table, j, w);
        if HashedAt(c, loc, table) { HashedMove(c, loc, table, b.index, AtWriteQueue); }
      case _ => HashedAdvance(c, ws, table, j, w);
    }
  }

  // Dropping a block leaves it as the last backup left it.
  lemma WorkerKeepsDone(c: Config, s: State, j: nat)
    requires ValidConfig(c) && WorkerCan(c, s, j) && WorkersAt(c, s.hist.loc, s.hs.ws)
    requires KeptBlocks(c, s) && DecidedAt(c, s.hist.loc, s.hs.ws) && DoneAt(c, s.hist.loc, s.copy)
    requires s.hs.ws[j].WPush? ==> !s.wq.finished
    ensures var s' := WorkerStep(c, s, j); Sized(c, s') && DoneAt(c, s'.hist.loc, s'.copy)
  {
    WorkerSizes(c, s, j);
    match s.hs.ws[j] {
      case WPop => if s.hq.items != [] { DoneMove(c, s.hist.loc, s.copy, s.hq.items[0].index, AtWorker(j)); }
      case WFree(b) =>
        assert SameDigest(c, b.index);
        DoneMove(c, s.hist.loc, s.copy, b.index, Dropped);
      case WPush(b) => DoneMove(c, s.hist.loc, s.copy, b.index, AtWriteQueue);
      case _ => assert WorkerStep(c, s, j).hist.loc == s.hist.loc;
    }
  }

  lemma WorkerFrame(c: Config, s: State, j: nat)
    requires WorkerCan(c, s, j)
    ensures var s' := WorkerStep(c, s, j);
      && s'.copy == s.copy && s'.files == s.files && s'.wr == s.wr && s'.hist.memBad == s.hist.memBad
      && (s'.hist.hashBad <==> s.hist.hashBad || !HashesItsOwn(c, s, j))
  {}

  lemma WorkerKeepsMemory(c: Config, s: State, j: nat)
    requires ValidConfig(c) && Comparable(c) && Stages.Inv(c, s) && Handshake.Inv(c, s) && Memory(c, s)
    requires Ownership.Inv(c, s) && WorkerCan(c, s, j) && c.hasher
    ensures Sized(c, WorkerStep(c, s, j)) && Memory(c, WorkerStep(c, s, j))
  {
    WorkerSizes(c, s, j);
    WorkerFrame(c, s, j);
    assert s.hs.ws[j].WPush? ==> !s.wq.finished;
    if !s.wr.failed {
      if s.hs.ws[j].WHash? { assert Ownership.Owned(c, s.pool, s.hs.ws[j].b); }
      WorkerKeepsDecided(c, s, j);
      if !s.hist.memBad { WorkerKeepsDone(c, s, j); }
    }
    if !s.wr.failed || !WorkerStep(c, s, j).hist.hashBad { WorkerKeepsHashed(c, s, j); }
  }

  // ---------------------------------------------------------------- writer

  lemma WriterMovesMemory(c: Config, s: State, s': State, i: nat, to: Loc)
    requires ValidConfig(c) && Sized(c, s) && Sized(c, s') && Memory(c, s) && i < c.n
    requires s'.hs == s.hs && s'.table == s.table && s'.copy == s.copy && s'.files == s.files
    requires SameTaint(s.hist, s'.hist) && s'.hist.loc == s.hist.loc[i := to]
    requires s'.wr.failed == s.wr.failed && !s'.wr.pc.NFail?
    requires to.AtWriter? && s.hist.loc[i].AtWriteQueue?
    ensures Memory(c, s')
  {}

  // The Write itself, with the block the writer holds.
  lemma WriteKeepsContent(c: Config, s: State, fail: bool, junk: Block)
    requires ValidConfig(c) && WriterCan(c, s) && Memory(c, s) && s.wr.pc.NGot?
    requires s.hist.loc[s.wr.pc.b.index].AtWriter?
    requires !s.wr.failed ==> Ownership.Owned(c, s.pool, s.wr.pc.b)
    ensures var s' := WriterStep(c, s, fail, junk);
      Sized(c, s') && KeptBlocks(c, s') && (!s'.hist.memBad ==> DoneAt(c, s'.hist.loc, s'.copy))
  {
    WriterSizes(c, s, fail, junk);
    assert WriterStep(c, s, fail, junk).files.disk == s.files.disk;
  }

  lemma WriteKeepsMemory(c: Config, s: State, fail: bool, junk: Block)
    requires ValidConfig(c) && WriterCan(c, s) && Memory(c, s) && s.wr.pc.NGot?
    requires s.hist.loc[s.wr.pc.b.index].AtWriter?
    requires !s.wr.failed ==> Ownership.Owned(c, s.pool, s.wr.pc.b)
    ensures Sized(c, WriterStep(c, s, fail, junk)) && Memory(c, WriterStep(c, s, fail, junk))
  {
    hide KeptBlocks, DoneAt;
    WriteKeepsContent(c, s, fail, junk);
    WriterLeaves(c, s, fail, junk);
  }

  lemma WriterFrame(c: Config, s: State, fail: bool, junk: Block)
    requires WriterCan(c, s) && !s.wr.pc.NGot? && !(s.wr.pc.NPop? && s.wq.items != [])
    ensures var s' := WriterStep(c, s, fail, junk);
      && s'.hist == s.hist && s'.copy == s.copy && s'.hs == s.hs && s'.table == s.table && s'.files == s.files
      && (s.wr.failed ==> s'.wr.failed) && (s'.wr.failed ==> s.wr.failed || s.wr.pc.NFail?) && !s'.wr.pc.NFail?
  {}

  lemma WriterKeepsMemory(c: Config, s: State, fail: bool, junk: Block)
    requires ValidConfig(c) && Stages.Inv(c, s) && Memory(c, s) && Ownership.Inv(c, s) && WriterCan(c, s)
    ensures Sized(c, WriterStep(c, s, fail, junk)) && Memory(c, WriterStep(c, s, fail, junk))
  {
    WriterSizes(c, s, fail, junk);
    var s' := WriterStep(c, s, fail, junk);
    if s.wr.pc.NGot? {
      WriteKeepsMemory(c, s, fail, junk);
    } else if s.wr.pc.NPop? && s.wq.items != [] {
      QueueHead(c, s.hist.loc, s.wq.items, AtWriteQueue);
      WriterMovesMemory(c, s, s', s.wq.items[0].index, AtWriter);
    } else {
      WriterFrame(c, s, fail, junk);
    }
  }
}
