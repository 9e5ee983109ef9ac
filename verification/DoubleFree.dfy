/** A run in which the buffer of a failed Write, freed twice, makes a block be hashed with the bytes
    of the next one. Every block in it goes through the first buffer. */
module DoubleFree {
  import opened Common
  import opened Pipeline
  import opened Frames
  import opened Stages
  import opened Durability
  import opened Convergence
  import opened Driving

  predicate NoneTaken(p: Pool) {
    |p.alloc| == ALLOCATOR_BLOCKS && forall k :: 0 <= k < ALLOCATOR_BLOCKS ==> !p.alloc[k]
  }

  predicate Unflagged(s: State) {
    !s.ct.pause && !s.ct.rabort && !s.ct.habort && !s.ct.nabort && s.ct.pc.CIdle?
  }

  ghost predicate NoneFrom(x: set<nat>, m: nat) { forall i :: i in x ==> i < m }

  predicate Fresh(w: WorkerPc) { w.WInit? || w.WLoop? }

  // The first m blocks have been read, those of `waiting` wait to be hashed, and everything else is idle.
  ghost predicate Ready(c: Config, s: State, m: nat, waiting: seq<Item>) {
    && Sized(c, s) && Unflagged(s) && m <= c.n && c.hasher && c.workers > 0
    && s.rd == ReaderState(RCheck, m, Running) && s.hq == Queue(waiting, false) && s.wq == Queue([], false)
    && Fresh(s.hs.ws[0]) && NoneTaken(s.pool) && NoneFrom(s.bits.processed, m)
  }

  // Nothing but the files' histories may have changed.
  predicate SameFiles(s: State, s': State) {
    && s'.files.ckptFile == s.files.ckptFile && s'.files.tableFile == s.files.tableFile && s'.ct == s.ct
  }

  // ---------------------------------------------------------------- one block to the hashers

  lemma GoReader(c: Config, fs: set<Failure>, s: State) returns (s': State)
    requires Leads(c, fs, s) && ReaderCan(c, s, false)
    ensures s' == ReaderStep(c, s, false) && Leads(c, fs, s') && Sized(c, s')
  {
    ReaderSizes(c, s, false);
    s' := Go(c, fs, s, Reader(false));
  }

  lemma GoHasher(c: Config, fs: set<Failure>, s: State) returns (s': State)
    requires Leads(c, fs, s) && WorkerCan(c, s, 0)
    ensures s' == WorkerStep(c, s, 0) && Leads(c, fs, s') && Sized(c, s')
  {
    WorkerSizes(c, s, 0);
    s' := Go(c, fs, s, Worker(0));
  }

  lemma FirstIsFree(p: Pool)
    requires NoneTaken(p)
    ensures FirstFree(p.alloc) == 0
  {}

  // The reader takes the first buffer for block m.
  lemma FetchFirst(c: Config, fs: set<Failure>, s: State, m: nat) returns (s': State)
    requires Leads(c, fs, s) && Sized(c, s) && Unflagged(s) && NoneTaken(s.pool) && m < c.n && m !in s.bits.processed
    requires s.rd == ReaderState(RCheck, m, Running)
    ensures Leads(c, fs, s') && Sized(c, s')
    ensures s' == s.(rd := ReaderState(RRead(0), m, Running), pool := Take(s.pool, 0, m),
                     hist := Move(s.hist, m, AtReader))
  {
    FirstIsFree(s.pool);
    s' := GoReader(c, fs, s);
    s' := GoReader(c, fs, s');
    s' := GoReader(c, fs, s');
    s' := GoReader(c, fs, s');
  }

  // It reads the block and hands it to the hashers.
  lemma ReadNext(c: Config, fs: set<Failure>, s: State, m: nat) returns (s': State)
    requires Leads(c, fs, s) && Sized(c, s) && Unflagged(s) && NoneTaken(s.pool) && m < c.n && m !in s.bits.processed
    requires s.rd == ReaderState(RCheck, m, Running) && c.hasher && !s.hq.finished && |s.hq.items| < QUEUE_SIZE
    ensures Leads(c, fs, s') && Sized(c, s') && s'.rd == ReaderState(RCheck, m + 1, Running)
    ensures s'.pool.alloc == s.pool.alloc[0 := true] && s'.pool.buf == s.pool.buf[0 := c.vol[m]]
    ensures s'.hq == s.hq.(items := s.hq.items + [Item(0, m)])
    ensures s' == s.(rd := s'.rd, pool := s'.pool, hq := s'.hq, hist := s'.hist, cnt := s'.cnt)
  {
    s' := FetchFirst(c, fs, s, m);
    s' := GoReader(c, fs, s');
    s' := GoReader(c, fs, s');
    s' := GoReader(c, fs, s');
  }

  lemma PopNext(c: Config, fs: set<Failure>, s: State, b: Item, rest: seq<Item>) returns (s': State)
    requires Leads(c, fs, s) && Sized(c, s) && Unflagged(s) && |s.hs.ws| > 0 && Fresh(s.hs.ws[0])
    requires s.hq == Queue([b] + rest, false) && InRange(c, b)
    ensures Leads(c, fs, s') && Sized(c, s') && s'.hs.ws == s.hs.ws[0 := WHash(b)] && s'.hq == Queue(rest, false)
    ensures s' == s.(hs := s'.hs, hq := s'.hq, hist := s'.hist)
  {
    s' := s;
    if s'.hs.ws[0].WInit? { s' := GoHasher(c, fs, s'); }
    s' := GoHasher(c, fs, s');
    s' := GoHasher(c, fs, s');
  }

  // The first worker takes the oldest block and hashes what is in its buffer.
  lemma HashNext(c: Config, fs: set<Failure>, s: State, b: Item, rest: seq<Item>) returns (s': State)
    requires Leads(c, fs, s) && Sized(c, s) && Unflagged(s) && |s.hs.ws| > 0 && Fresh(s.hs.ws[0])
    requires s.hq == Queue([b] + rest, false) && InRange(c, b)
    ensures Leads(c, fs, s') && Sized(c, s') && s'.hs.ws == s.hs.ws[0 := WCompare(b)] && s'.hq == Queue(rest, false)
    ensures s'.table == s.table[b.index := c.digest(s.pool.buf[b.slot])]
    ensures s' == s.(hs := s'.hs, hq := s'.hq, table := s'.table, hist := s'.hist, cnt := s'.cnt)
  {
    s' := PopNext(c, fs, s, b, rest);
    s' := GoHasher(c, fs, s');
  }

  // It drops the block, frees its buffer and marks it.
  lemma DropNext(c: Config, fs: set<Failure>, s: State, b: Item) returns (s': State)
    requires Leads(c, fs, s) && Sized(c, s) && |s.hs.ws| > 0 && s.hs.ws[0] == WCompare(b) && InRange(c, b)
    requires c.mode.Diff? && Unchanged(c, s.table, b.index)
    ensures Leads(c, fs, s') && Sized(c, s') && s'.hs.ws == s.hs.ws[0 := WLoop] && s'.pool == Free(s.pool, b.slot)
    ensures s'.bits.processed <= s.bits.processed + {b.index}
    ensures s' == s.(hs := s'.hs, pool := s'.pool, hist := s'.hist, bits := s'.bits)
  {
    s' := GoHasher(c, fs, s);
    s' := GoHasher(c, fs, s');
    s' := GoHasher(c, fs, s');
    s' := GoHasher(c, fs, s');
  }

  lemma ChargeNext(c: Config, fs: set<Failure>, s: State, b: Item) returns (s': State)
    requires Leads(c, fs, s) && Sized(c, s) && |s.hs.ws| > 0 && s.hs.ws[0] == WCompare(b) && InRange(c, b)
    requires !(c.mode.Diff? && Unchanged(c, s.table, b.index)) && s.wq == Queue([], false)
    ensures Leads(c, fs, s') && Sized(c, s') && s'.hs.ws == s.hs.ws[0 := WLoop] && s'.wq == Queue([b], false)
    ensures s' == s.(hs := s'.hs, wq := s'.wq, hist := s'.hist, cnt := s'.cnt)
  {
    s' := GoHasher(c, fs, s);
    s' := GoHasher(c, fs, s');
    s' := GoHasher(c, fs, s');
  }

  // Or it charges the block and hands it to the writer, who takes it.
  lemma ForwardNext(c: Config, fs: set<Failure>, s: State, b: Item) returns (s': State)
    requires Leads(c, fs, s) && Sized(c, s) && Unflagged(s) && |s.hs.ws| > 0 && s.hs.ws[0] == WCompare(b)
    requires InRange(c, b)
    requires !(c.mode.Diff? && Unchanged(c, s.table, b.index)) && s.wq == Queue([], false) && s.wr.pc.NTop?
    ensures Leads(c, fs, s') && Sized(c, s') && s'.hs.ws == s.hs.ws[0 := WLoop] && s'.wr == s.wr.(pc := NGot(b))
    ensures s' == s.(hs := s'.hs, wr := s'.wr, hist := s'.hist, cnt := s'.cnt)
  {
    s' := ChargeNext(c, fs, s, b);
    s' := GoWriter(c, fs, s', false, []);
    s' := GoWriter(c, fs, s', false, []);
    assert s'.wq == Queue([], false);
  }

  // ---------------------------------------------------------------- one block to its end

  // The writer releases a block it has marked.
  lemma ReleaseBlock(c: Config, fs: set<Failure>, s: State) returns (s': State)
    requires Leads(c, fs, s) && Sized(c, s) && s.wr.pc.NFree? && InRange(c, s.wr.pc.b)
    ensures Leads(c, fs, s') && Sized(c, s') && s'.wr == s.wr.(pc := NTop) && s'.pool == Free(s.pool, s.wr.pc.b.slot)
    ensures s' == s.(wr := s'.wr, pool := s'.pool, cnt := s'.cnt)
  {
    s' := GoWriter(c, fs, s, false, []);
    s' := GoWriter(c, fs, s', false, []);
  }

  // From the comparison of block m, in the first buffer, to its end: dropped, written, or lost.
  ghost predicate EndedFrom(c: Config, s: State, s': State, m: nat) {
    && Sized(c, s) && Sized(c, s') && SameFiles(s, s') && s'.rd == s.rd && s'.hq == s.hq && s'.wq == s.wq
    && s'.table == s.table
    && s'.wr.pc == s.wr.pc && s'.wr.failed == s.wr.failed && |s.hs.ws| > 0 && s'.hs.ws == s.hs.ws[0 := WLoop]
    && s'.pool.alloc == s.pool.alloc[0 := false] && s'.bits.processed <= s.bits.processed + {m}
  }

  lemma WriteNext(c: Config, fs: set<Failure>, s: State, m: nat) returns (s': State)
    requires Leads(c, fs, s) && Sized(c, s) && m < c.n && s.wr.pc == NGot(Item(0, m))
    ensures Leads(c, fs, s') && Sized(c, s') && SameFiles(s, s') && s'.rd == s.rd && s'.hq == s.hq && s'.wq == s.wq
    ensures s'.table == s.table && s'.hs == s.hs && s'.wr.pc.NTop? && s'.wr.failed == s.wr.failed
    ensures s'.pool.alloc == s.pool.alloc[0 := false] && s'.bits.processed <= s.bits.processed + {m}
  {
    if s.wr.failed {
      s' := GoWriter(c, fs, s, false, []);
    } else {
      s' := WriteBlock(c, fs, s, m, false, []);
      s' := ReleaseBlock(c, fs, s');
    }
  }

  lemma EndNext(c: Config, fs: set<Failure>, s: State, m: nat) returns (s': State)
    requires Leads(c, fs, s) && Sized(c, s) && Unflagged(s) && m < c.n && |s.hs.ws| > 0
    requires s.hs.ws[0] == WCompare(Item(0, m))
    requires s.wq == Queue([], false) && s.wr.pc.NTop?
    ensures Leads(c, fs, s') && EndedFrom(c, s, s', m)
  {
    if c.mode.Diff? && Unchanged(c, s.table, m) {
      s' := DropNext(c, fs, s, Item(0, m));
    } else {
      s' := ForwardNext(c, fs, s, Item(0, m));
      s' := WriteNext(c, fs, s', m);
    }
  }

  // ---------------------------------------------------------------- up to the block whose Write fails

  lemma PassOne(c: Config, fs: set<Failure>, s: State, m: nat) returns (s': State)
    requires Leads(c, fs, s) && Ready(c, s, m, []) && s.wr.pc.NTop? && !s.wr.failed && m < c.n
    ensures Leads(c, fs, s') && Ready(c, s', m + 1, []) && s'.wr.pc.NTop? && !s'.wr.failed && SameFiles(s, s')
  {
    s' := ReadNext(c, fs, s, m);
    assert s'.hq.items == [Item(0, m)] + [];
    s' := HashNext(c, fs, s', Item(0, m), []);
    s' := EndNext(c, fs, s', m);
  }

  lemma {:induction false} PassUpTo(c: Config, fs: set<Failure>, s: State, f: nat) returns (s': State)
    requires Leads(c, fs, s) && Ready(c, s, 0, []) && s.wr.pc.NTop? && !s.wr.failed && f <= c.n
    ensures Leads(c, fs, s') && Ready(c, s', f, []) && s'.wr.pc.NTop? && !s'.wr.failed && SameFiles(s, s')
  {
    if f == 0 {
      s' := s;
    } else {
      s' := PassUpTo(c, fs, s, f - 1);
      s' := PassOne(c, fs, s', f - 1);
    }
  }

  // ---------------------------------------------------------------- the double free

  // The writer has got block f, which has changed.
  lemma BringNext(c: Config, fs: set<Failure>, s: State, f: nat) returns (s': State)
    requires ValidConfig(c) && Comparable(c) && Leads(c, fs, s) && Ready(c, s, f, []) && s.wr.pc.NTop? && !s.wr.failed
    requires f < c.n && !Keeps(c, f)
    ensures Leads(c, fs, s') && Sized(c, s') && Unflagged(s') && SameFiles(s, s')
    ensures s'.wr == s.wr.(pc := NGot(Item(0, f)))
    ensures s'.rd == ReaderState(RCheck, f + 1, Running) && s'.hq == s'.wq == Queue([], false) && s'.bits == s.bits
    ensures Fresh(s'.hs.ws[0]) && s'.pool.alloc == s.pool.alloc[0 := true] && s'.pool.buf[0] == c.vol[f]
  {
    s' := ReadNext(c, fs, s, f);
    assert s'.hq.items == [Item(0, f)] + [];
    s' := HashNext(c, fs, s', Item(0, f), []);
    assert !(c.mode.Diff? && Unchanged(c, s'.table, f)) by {
      assert c.mode.Diff? ==> CompareOffset(f) == CHECKSUM_SIZE * f;
    }
    s' := ForwardNext(c, fs, s', Item(0, f));
  }

  lemma FailWrite(c: Config, fs: set<Failure>, s: State, f: nat, junk: Block) returns (s': State)
    requires Leads(c, fs, s) && Sized(c, s) && f < c.n && s.wr.pc == NGot(Item(0, f)) && !s.wr.failed
    requires NeedToWrite(c.skipEmpty, s.pool.buf[0]) && WriteFails in fs && |junk| == |c.vol[f]|
    ensures Leads(c, fs, s') && Sized(c, s') && s'.wr.pc == NSetW(Item(0, f)) && s'.wr.failed && SameFiles(s, s')
    ensures s'.pool == Free(s.pool, 0)
    ensures s' == s.(wr := s'.wr, pool := s'.pool, copy := s'.copy, hist := s'.hist, files := s'.files)
  {
    s' := GoWriter(c, fs, s, true, junk);
    s' := GoWriter(c, fs, s', false, []);
  }

  lemma FailNext(c: Config, fs: set<Failure>, s: State, f: nat, junk: Block) returns (s': State)
    requires ValidConfig(c) && Comparable(c) && Leads(c, fs, s) && Ready(c, s, f, []) && s.wr.pc.NTop? && !s.wr.failed
    requires f < c.n && !Keeps(c, f) && WriteFails in fs && |junk| == |c.vol[f]|
    ensures Leads(c, fs, s') && Sized(c, s') && Unflagged(s') && SameFiles(s, s')
    ensures s'.wr.pc == NSetW(Item(0, f)) && s'.wr.failed && s'.bits == s.bits && NoneTaken(s'.pool)
    ensures s'.rd == ReaderState(RCheck, f + 1, Running) && s'.hq == s'.wq == Queue([], false) && Fresh(s'.hs.ws[0])
  {
    s' := BringNext(c, fs, s, f);
    s' := FailWrite(c, fs, s', f, junk);
  }

  // Its Write fails, and its buffer is freed; the next block takes the buffer, and it is freed once more.
  lemma FreeTwice(c: Config, fs: set<Failure>, s: State, f: nat, junk: Block) returns (s': State)
    requires ValidConfig(c) && Comparable(c) && Leads(c, fs, s) && Ready(c, s, f, []) && s.wr.pc.NTop? && !s.wr.failed
    requires f + 1 < c.n && !Keeps(c, f) && WriteFails in fs && |junk| == |c.vol[f]|
    ensures Leads(c, fs, s') && Ready(c, s', f + 2, [Item(0, f + 1)]) && s'.wr.pc.NTop? && s'.wr.failed
    ensures SameFiles(s, s')
  {
    s' := FailNext(c, fs, s, f, junk);
    s' := ReadNext(c, fs, s', f + 1);
    s' := MarkBlock(c, fs, s');
    s' := ReleaseBlock(c, fs, s');
  }

  // ---------------------------------------------------------------- on to the block to be spoilt

  // The next block takes the buffer of the one that waits, which is then hashed, ends and frees it.
  lemma Shift(c: Config, fs: set<Failure>, s: State, j: nat) returns (s': State)
    requires Leads(c, fs, s) && Ready(c, s, j + 1, [Item(0, j)]) && s.wr.pc.NTop? && s.wr.failed && j + 1 < c.n
    ensures Leads(c, fs, s') && Ready(c, s', j + 2, [Item(0, j + 1)]) && s'.wr.pc.NTop? && s'.wr.failed
    ensures SameFiles(s, s')
  {
    s' := ReadNext(c, fs, s, j + 1);
    assert s'.hq.items == [Item(0, j)] + [Item(0, j + 1)];
    s' := HashNext(c, fs, s', Item(0, j), [Item(0, j + 1)]);
    s' := EndNext(c, fs, s', j);
  }

  lemma {:induction false} ShiftTo(c: Config, fs: set<Failure>, s: State, j: nat, k: nat) returns (s': State)
    requires Leads(c, fs, s) && Ready(c, s, j + 1, [Item(0, j)]) && s.wr.pc.NTop? && s.wr.failed && j <= k < c.n
    ensures Leads(c, fs, s') && Ready(c, s', k + 1, [Item(0, k)]) && s'.wr.pc.NTop? && s'.wr.failed && SameFiles(s, s')
    decreases k - j
  {
    s' := s;
    if j < k {
      s' := Shift(c, fs, s, j);
      s' := ShiftTo(c, fs, s', j + 1, k);
    }
  }

  // Block k is hashed with the bytes of the next one.
  lemma HashWrongly(c: Config, fs: set<Failure>, s: State, k: nat) returns (s': State)
    requires Leads(c, fs, s) && Ready(c, s, k + 1, [Item(0, k)]) && s.wr.pc.NTop? && s.wr.failed && k + 1 < c.n
    ensures Leads(c, fs, s') && Sized(c, s') && SameFiles(s, s') && s'.table[k] == c.digest(c.vol[k + 1])
  {
    s' := ReadNext(c, fs, s, k + 1);
    assert s'.hq.items == [Item(0, k)] + [Item(0, k + 1)];
    s' := HashNext(c, fs, s', Item(0, k), [Item(0, k + 1)]);
  }

  // All of it: block f fails, and block k behind it gets the digest of the next one.
  lemma SpoilDigest(c: Config, fs: set<Failure>, s: State, f: nat, k: nat) returns (s': State)
    requires ValidConfig(c) && Comparable(c) && Leads(c, fs, s) && Ready(c, s, 0, []) && s.wr.pc.NTop? && !s.wr.failed
    requires f < k < c.n - 1 && !Keeps(c, f) && WriteFails in fs
    ensures Leads(c, fs, s') && Sized(c, s') && SameFiles(s, s') && s'.table[k] == c.digest(c.vol[k + 1])
  {
    s' := PassUpTo(c, fs, s, f);
    s' := FreeTwice(c, fs, s', f, c.vol[f]);
    s' := ShiftTo(c, fs, s', f + 1, k);
    s' := HashWrongly(c, fs, s', k);
  }
}
