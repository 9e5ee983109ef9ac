/** For which sessions the failures that nobody notices do harm: exactly when a session can end in
    success with a wrong target or a wrong table. */
module Departures {
  import opened Common
  import opened Pipeline
  import opened Durability
  import opened Convergence
  import opened QuietRuns
  import opened DoubleFree
  import opened Driving
  import opened Safety
  import opened Sharing
  import Session

  // ---------------------------------------------------------------- the start

  lemma FreshStart(c: Config, fs: set<Failure>, i: nat)
    requires ValidConfig(c) && i < c.n
    ensures var s := Init(c);
      && Leads(c, fs, s) && Sized(c, s) && Smooth(s) && s.ct.pc.CIdle? && !s.ct.pause
      && s.hist.loc[i].Todo? && s.copy == s.files.disk == c.base && s.table[i] == ZERO_DIGEST && s.bits == Snap({}, {})
  {
    Start(c, fs);
    Session.InitInv(c);
  }

  // The writer stands before the Write of block i, which has changed.
  lemma BeforeTheWrite(c: Config, fs: set<Failure>, i: nat) returns (s: State)
    requires ValidConfig(c) && Comparable(c) && i < c.n && !Keeps(c, i)
    ensures Leads(c, fs, s) && Sized(c, s) && Smooth(s) && s.ct.pc.CIdle?
    ensures s.wr.pc.NGot? && s.wr.pc.b.index == i && s.wr.pc.b.slot < ALLOCATOR_BLOCKS
    ensures s.pool.buf[s.wr.pc.b.slot] == c.vol[i] && s.copy[i] == c.base[i] && s.files.disk == c.base
  {
    FreshStart(c, fs, i);
    s := ReadBlock(c, fs, Init(c), i);
    s := BringBlock(c, fs, s, i);
    WhoEndsIt(c, fs, s, i);
  }

  // ---------------------------------------------------------------- harm to the target

  // A failed Write falls through: the block is marked, a checkpoint taken before the control thread
  // notices the failure names it, and after a crash the next run skips it.
  lemma WriteFailureHarms(c: Config, fs: set<Failure>, i: nat) returns (s: State)
    requires ValidConfig(c) && Comparable(c) && c.checkpoint && WriteFails in fs && i < c.n && !Keeps(c, i)
    ensures Leads(c, fs, s) && Succeeded(s) && !CopyRight(c, s)
  {
    var block := c.vol[i];
    var junk := block[0 := if block[0] == 0 then 1 else 0];
    assert junk[0] != block[0];
    s := BeforeTheWrite(c, fs, i);
    s := WriteBlock(c, fs, s, i, true, junk);
    s := RefreshAll(c, fs, s, true);
    s := RestartSkips(c, fs, s, c.vol, false, i);
    assert s.copy[i] == junk != Target(c, i);
  }

  // Nobody looks at the result of an fsync: both saves follow all the same, and a crash of the
  // machine takes away a block that the checkpoint names.
  lemma SyncFailureHarms(c: Config, fs: set<Failure>, i: nat) returns (s: State)
    requires ValidConfig(c) && Comparable(c) && c.checkpoint && SyncFails in fs
    requires i < c.n && Target(c, i) != c.base[i]
    ensures Leads(c, fs, s) && Succeeded(s) && !CopyRight(c, s)
  {
    s := BeforeTheWrite(c, fs, i);
    s := WriteBlock(c, fs, s, i, false, []);
    s := RefreshAll(c, fs, s, false);
    s := RestartSkips(c, fs, s, c.base, true, i);
    assert s.copy[i] == c.base[i];
  }

  // A refresh first saves a snapshot newer than the data it has flushed. If the machine goes down
  // before the older one replaces it, the next run trusts a block that never reached the disk.
  lemma SecondSaveHarms(c: Config, fs: set<Failure>, i: nat) returns (s: State)
    requires ValidConfig(c) && Comparable(c) && c.checkpoint && SecondSaveLost in fs
    requires i < c.n && Target(c, i) != c.base[i]
    ensures Leads(c, fs, s) && Succeeded(s) && !CopyRight(c, s)
  {
    s := BeforeTheWrite(c, fs, i);
    var older := s.bits;
    s := BeginRefresh(c, fs, s);
    s := SyncData(c, fs, s, true);
    s := WriteBlock(c, fs, s, i, false, []);
    s := SaveNewer(c, fs, s, older);
    s := RestartSkips(c, fs, s, c.base, true, i);
    assert s.copy[i] == c.base[i];
  }

  // ---------------------------------------------------------------- harm to the table

  // Likewise it may save a snapshot newer than the table.
  lemma SecondSaveHarmsTable(c: Config, fs: set<Failure>, i: nat) returns (s: State)
    requires ValidConfig(c) && Comparable(c) && c.checkpoint && c.hasher && SecondSaveLost in fs
    requires i < c.n && c.digest(c.vol[i]) != ZERO_DIGEST
    ensures Leads(c, fs, s) && Succeeded(s) && !TableRight(c, s)
  {
    FreshStart(c, fs, i);
    s := ReadBlock(c, fs, Init(c), i);
    var older := s.bits;
    s := BeginRefresh(c, fs, s);
    s := SyncData(c, fs, s, true);
    s := BringBlock(c, fs, s, i);
    s := EndBlock(c, fs, s, i);
    s := SaveNewer(c, fs, s, older);
    s := RestartSkips(c, fs, s, c.vol, false, i);
    assert s.table[i] == ZERO_DIGEST;
  }

  lemma BitsInRange(c: Config, fs: set<Failure>, s: State, i: nat)
    requires ValidConfig(c) && Comparable(c) && Leads(c, fs, s) && i in s.bits.processed
    ensures i < c.n && Sized(c, s)
  {
    Reached(c, fs, s);
  }

  // The result of the last table save is ignored. When it fails and the backup is started again, the
  // session resumes from its last bits with the table of an earlier refresh.
  lemma LostTableHarms(c: Config, fs: set<Failure>) returns (s: State)
    requires ValidConfig(c) && Comparable(c) && c.checkpoint && c.hasher && LastTableLost in fs
    requires forall i :: 0 <= i < c.n ==> c.digest(c.vol[i]) != ZERO_DIGEST
    ensures Leads(c, fs, s) && Succeeded(s) && !TableRight(c, s)
  {
    FreshStart(c, fs, 0);
    s := RefreshAll(c, fs, Init(c), true);
    s := ReadBlock(c, fs, s, 0);
    s := BringBlock(c, fs, s, 0);
    s := EndBlock(c, fs, s, 0);
    s := RunToEnd(c, fs, s);
    var i :| i in s.bits.processed;
    BitsInRange(c, fs, s, i);
    s := EndWithoutTable(c, fs, s);
    assert s.files.tableFile == Some(Init(c).table);
    s := RestartSkips(c, fs, s, c.vol, false, i);
    assert s.table[i] == ZERO_DIGEST;
  }

  // A restart that cannot read the table starts afresh, but leaves the old bits in place. If it
  // saves its empty table and goes down before it has saved its bits, the run after it joins the old
  // bits with the empty table.
  lemma UnreadableTableHarms(c: Config, fs: set<Failure>, i: nat) returns (s: State)
    requires ValidConfig(c) && Comparable(c) && c.checkpoint && c.hasher && TableUnreadable in fs
    requires i < c.n && c.digest(c.vol[i]) != ZERO_DIGEST
    ensures Leads(c, fs, s) && Succeeded(s) && !TableRight(c, s)
  {
    FreshStart(c, fs, i);
    s := ReadBlock(c, fs, Init(c), i);
    s := BringBlock(c, fs, s, i);
    s := EndBlock(c, fs, s, i);
    s := RefreshAll(c, fs, s, true);
    s := Restart(c, fs, s, c.vol, false, false, true);
    assert s.table[i] == ZERO_DIGEST;
    s := BeginRefresh(c, fs, s);
    s := RestartSkips(c, fs, s, c.vol, false, i);
    assert s.table[i] == ZERO_DIGEST;
  }

  // A session that starts afresh, with a checkpoint that names block k left in its files.
  lemma OldCheckpoint(c: Config, fs: set<Failure>, k: nat) returns (s: State)
    requires ValidConfig(c) && Comparable(c) && c.checkpoint && c.hasher && k < c.n
    ensures Leads(c, fs, s) && Ready(c, s, 0, []) && s.wr.pc.NTop? && !s.wr.failed
    ensures s.files.ckptFile.Some? && k in s.files.ckptFile.value.processed
  {
    FreshStart(c, fs, k);
    s := ReadBlock(c, fs, Init(c), k);
    s := BringBlock(c, fs, s, k);
    s := EndBlock(c, fs, s, k);
    s := RefreshAll(c, fs, s, true);
    s := Restart(c, fs, s, c.vol, false, true, false);
    assert FirstUnset({}, c.n) == 0;
  }

  // A failed Write frees its buffer twice, so that a later block is hashed with the bytes of the one
  // after it. If an old checkpoint names that block, and the machine goes down after the table has
  // been saved, the next run restores it with the wrong digest.
  lemma WriteFailureHarmsTable(c: Config, fs: set<Failure>, f: nat, k: nat) returns (s: State)
    requires ValidConfig(c) && Comparable(c) && c.checkpoint && c.hasher && WriteFails in fs
    requires f < k < c.n - 1 && !Keeps(c, f) && !SameAsNext(c, k)
    ensures Leads(c, fs, s) && Succeeded(s) && !TableRight(c, s)
  {
    s := OldCheckpoint(c, fs, k);
    s := SpoilDigest(c, fs, s, f, k);
    s := BeginRefresh(c, fs, s);
    s := RestartSkips(c, fs, s, c.vol, false, k);
    assert s.table[k] == c.digest(c.vol[k + 1]);
  }

  // ---------------------------------------------------------------- exactly when

  // Every session that ends in success, having met no failures but those of `fs`, has the right target.
  ghost predicate CopyAlwaysRight(c: Config, fs: set<Failure>)
    requires ValidConfig(c)
  {
    forall s :: Leads(c, fs, s) && Succeeded(s) ==> CopyRight(c, s)
  }

  ghost predicate TableAlwaysRight(c: Config, fs: set<Failure>)
    requires ValidConfig(c)
  {
    forall s :: Leads(c, fs, s) && Succeeded(s) && c.hasher ==> TableRight(c, s)
  }

  // What can be told of a session beforehand: whether it takes checkpoints, and what it has to write.
  ghost predicate CopySafe(c: Config, fs: set<Failure>)
    requires ValidConfig(c)
  {
    || !c.checkpoint
    || ((WriteFails in fs ==> AllKept(c)) && (SyncFails in fs || SecondSaveLost in fs ==> NothingNew(c)))
  }

  lemma CopyRightIfSafe(c: Config, fs: set<Failure>)
    requires ValidConfig(c) && Comparable(c) && CopySafe(c, fs)
    ensures CopyAlwaysRight(c, fs)
  {
    forall s | Leads(c, fs, s) && Succeeded(s) ensures CopyRight(c, s) {
      var steps :| RunsWith(c, fs, Init(c), steps, s);
      if !c.checkpoint {
        WithoutCheckpoints(c, fs, steps, s);
      } else if WriteFails in fs {
        WithAllKept(c, fs, steps, s);
      } else if SyncFails in fs || SecondSaveLost in fs {
        WithNothingNew(c, fs, steps, s);
      } else {
        WithoutSpoilers(c, fs, steps, s);
      }
    }
  }

  // Whatever failures a session may meet, in any number and order, its successes leave the right target
  // exactly if it takes no checkpoints or has nothing to lose by them.
  lemma CopyRightExactly(c: Config, fs: set<Failure>)
    requires ValidConfig(c) && Comparable(c)
    ensures CopyAlwaysRight(c, fs) <==> CopySafe(c, fs)
  {
    if CopySafe(c, fs) {
      CopyRightIfSafe(c, fs);
    } else if WriteFails in fs && !AllKept(c) {
      var i :| 0 <= i < c.n && !Keeps(c, i);
      var s := WriteFailureHarms(c, fs, i);
    } else {
      var i :| 0 <= i < c.n && Target(c, i) != c.base[i];
      if SyncFails in fs {
        var s := SyncFailureHarms(c, fs, i);
      } else {
        var s := SecondSaveHarms(c, fs, i);
      }
    }
  }

  // The digests are told apart from what a fresh table holds.
  ghost predicate NoZeroDigest(c: Config) { forall b :: c.digest(b) != ZERO_DIGEST }

  // Likewise for the digests. A failed Write does them no harm if behind the first block that the session
  // may write all blocks have the same digest.
  ghost predicate TableSafe(c: Config, fs: set<Failure>)
    requires ValidConfig(c)
  {
    !c.hasher || !c.checkpoint || (fs !! TABLE_LOSSES && (WriteFails in fs ==> TailSame(c)))
  }

  lemma TableRightIfSafe(c: Config, fs: set<Failure>)
    requires ValidConfig(c) && Comparable(c) && TableSafe(c, fs)
    ensures TableAlwaysRight(c, fs)
  {
    forall s | Leads(c, fs, s) && Succeeded(s) && c.hasher ensures TableRight(c, s) {
      var steps :| RunsWith(c, fs, Init(c), steps, s);
      if !c.checkpoint {
        WithoutCheckpoints(c, fs, steps, s);
      } else if WriteFails in fs {
        WithSameTail(c, fs, steps, s);
      } else {
        WithoutSpoilers(c, fs, steps, s);
      }
    }
  }

  lemma TableRightExactly(c: Config, fs: set<Failure>)
    requires ValidConfig(c) && Comparable(c) && NoZeroDigest(c)
    ensures TableAlwaysRight(c, fs) <==> TableSafe(c, fs)
  {
    if TableSafe(c, fs) {
      TableRightIfSafe(c, fs);
    } else if SecondSaveLost in fs {
      var s := SecondSaveHarmsTable(c, fs, 0);
    } else if LastTableLost in fs {
      var s := LostTableHarms(c, fs);
    } else if TableUnreadable in fs {
      var s := UnreadableTableHarms(c, fs, 0);
    } else {
      var f, k :| 0 <= f < k < c.n - 1 && !Keeps(c, f) && !SameAsNext(c, k);
      var s := WriteFailureHarmsTable(c, fs, f, k);
    }
  }

  // ---------------------------------------------------------------- every run at all

  const ANY_FAILURE := {WriteFails, SyncFails, SecondSaveLost, LastTableLost, TableUnreadable}

  lemma {:induction false} EveryRun(c: Config, s: State, steps: seq<Action>, s': State)
    ensures Reaches(c, s, steps, s') <==> RunsWith(c, ANY_FAILURE, s, steps, s')
    decreases |steps|
  {
    var last := |steps| - 1;
    if |steps| > 1 {
      forall mid
        ensures Reaches(c, s, steps[..last], mid) <==> RunsWith(c, ANY_FAILURE, s, steps[..last], mid)
        ensures Reaches(c, mid, steps[last..], s') <==> RunsWith(c, ANY_FAILURE, mid, steps[last..], s')
      {
        EveryRun(c, s, steps[..last], mid);
        EveryRun(c, mid, steps[last..], s');
      }
    }
  }

  // Success means a right target, whatever happened before, exactly for the sessions that take no
  // checkpoints or have nothing to write.
  lemma SuccessMeansRightCopy(c: Config)
    requires ValidConfig(c) && Comparable(c)
    ensures (forall steps, s :: Reaches(c, Init(c), steps, s) && Succeeded(s) ==> CopyRight(c, s)) <==>
            !c.checkpoint || AllKept(c)
  {
    CopyRightExactly(c, ANY_FAILURE);
    if !c.checkpoint || AllKept(c) {
      assert AllKept(c) ==> NothingNew(c);
      forall steps, s | Reaches(c, Init(c), steps, s) && Succeeded(s) ensures CopyRight(c, s) {
        EveryRun(c, Init(c), steps, s);
        assert Leads(c, ANY_FAILURE, s);
      }
    } else {
      var s :| Leads(c, ANY_FAILURE, s) && Succeeded(s) && !CopyRight(c, s);
      var steps :| RunsWith(c, ANY_FAILURE, Init(c), steps, s);
      EveryRun(c, Init(c), steps, s);
    }
  }

  // And right digests exactly for those that take no checkpoints or compute none.
  lemma SuccessMeansRightTable(c: Config)
    requires ValidConfig(c) && Comparable(c) && NoZeroDigest(c)
    ensures (forall steps, s :: Reaches(c, Init(c), steps, s) && Succeeded(s) && c.hasher ==> TableRight(c, s)) <==>
            !c.hasher || !c.checkpoint
  {
    TableRightExactly(c, ANY_FAILURE);
    if !c.hasher || !c.checkpoint {
      forall steps, s | Reaches(c, Init(c), steps, s) && Succeeded(s) && c.hasher ensures TableRight(c, s) {
        EveryRun(c, Init(c), steps, s);
        assert Leads(c, ANY_FAILURE, s);
      }
    } else {
      var s :| Leads(c, ANY_FAILURE, s) && Succeeded(s) && c.hasher && !TableRight(c, s);
      var steps :| RunsWith(c, ANY_FAILURE, Init(c), steps, s);
      EveryRun(c, Init(c), steps, s);
    }
  }

  // ---------------------------------------------------------------- one failure at a time

  // A session that meets failures of one kind only can end in success with a wrong target or table.
  ghost predicate CopyHarmed(c: Config, f: Failure)
    requires ValidConfig(c)
  {
    exists s :: Leads(c, {f}, s) && Succeeded(s) && !CopyRight(c, s)
  }

  ghost predicate TableHarmed(c: Config, f: Failure)
    requires ValidConfig(c)
  {
    exists s :: Leads(c, {f}, s) && Succeeded(s) && c.hasher && !TableRight(c, s)
  }

  lemma HarmExactly(c: Config, f: Failure)
    requires ValidConfig(c) && Comparable(c)
    ensures CopyHarmed(c, f) <==> !CopySafe(c, {f})
    ensures NoZeroDigest(c) ==> (TableHarmed(c, f) <==> !TableSafe(c, {f}))
  {
    CopyRightExactly(c, {f});
    if NoZeroDigest(c) { TableRightExactly(c, {f}); }
  }

  // A failed Write is forgotten by a session that takes checkpoints and has anything to write; it takes
  // the digests with it only if blocks differ behind the first such block.
  lemma FailedWriteIsForgotten(c: Config)
    requires ValidConfig(c) && Comparable(c)
    ensures CopyHarmed(c, WriteFails) <==> c.checkpoint && !AllKept(c)
    ensures NoZeroDigest(c) ==> (TableHarmed(c, WriteFails) <==> c.hasher && c.checkpoint && !TailSame(c))
  {
    HarmExactly(c, WriteFails);
  }

  // A failed fsync loses data that differ from what the target held before, and never a digest.
  lemma FailedFsyncLosesData(c: Config)
    requires ValidConfig(c) && Comparable(c)
    ensures CopyHarmed(c, SyncFails) <==> c.checkpoint && !NothingNew(c)
    ensures NoZeroDigest(c) ==> !TableHarmed(c, SyncFails)
  {
    HarmExactly(c, SyncFails);
  }

  // So does a crash between the two saves of a refresh, or a second save that fails; and it may part
  // any block from its digest.
  lemma CrashBetweenSavesLosesData(c: Config)
    requires ValidConfig(c) && Comparable(c)
    ensures CopyHarmed(c, SecondSaveLost) <==> c.checkpoint && !NothingNew(c)
    ensures NoZeroDigest(c) ==> (TableHarmed(c, SecondSaveLost) <==> c.hasher && c.checkpoint)
  {
    HarmExactly(c, SecondSaveLost);
  }

  // A last table save that fails is forgotten by every session that hashes and takes checkpoints, but
  // costs no data.
  lemma LostTableIsForgotten(c: Config)
    requires ValidConfig(c) && Comparable(c)
    ensures !CopyHarmed(c, LastTableLost)
    ensures NoZeroDigest(c) ==> (TableHarmed(c, LastTableLost) <==> c.hasher && c.checkpoint)
  {
    HarmExactly(c, LastTableLost);
  }

  // Neither does a table that cannot be read.
  lemma UnreadableTableLosesDigest(c: Config)
    requires ValidConfig(c) && Comparable(c)
    ensures !CopyHarmed(c, TableUnreadable)
    ensures NoZeroDigest(c) ==> (TableHarmed(c, TableUnreadable) <==> c.hasher && c.checkpoint)
  {
    HarmExactly(c, TableUnreadable);
  }

  // ---------------------------------------------------------------- the smallest session harmed

  // A digest without collisions.
  function Tag(b: Block): Digest { [1] + b }

  // One block, one byte; the volume holds 1 where the target holds 0.
  function OneBlock(hasher: bool): Config {
    Config(1, 1, 1, hasher, if hasher then 1 else 0, Direct, false, true, [[1]], [[0]], [ZERO_DIGEST], Tag)
  }

  // It is a session like any other, and each of the five failures harms it.
  lemma OneBlockIsHarmed()
    ensures ValidConfig(OneBlock(true)) && ValidConfig(OneBlock(false))
    ensures forall hasher :: CopyHarmed(OneBlock(hasher), WriteFails) && CopyHarmed(OneBlock(hasher), SyncFails)
    ensures forall hasher :: CopyHarmed(OneBlock(hasher), SecondSaveLost)
    ensures var c := OneBlock(true); TableHarmed(c, LastTableLost) && TableHarmed(c, TableUnreadable)
  {
    forall hasher
      ensures ValidConfig(OneBlock(hasher)) && CopyHarmed(OneBlock(hasher), WriteFails)
      ensures CopyHarmed(OneBlock(hasher), SyncFails) && CopyHarmed(OneBlock(hasher), SecondSaveLost)
    {
      var c := OneBlock(hasher);
      assert ValidConfig(c) && !Keeps(c, 0) && Target(c, 0) == [1] != c.base[0];
      FailedWriteIsForgotten(c);
      FailedFsyncLosesData(c);
      CrashBetweenSavesLosesData(c);
    }
    forall b: Block ensures Tag(b) != ZERO_DIGEST { assert Tag(b)[0] == 1 && ZERO_DIGEST[0] == 0; }
    LostTableIsForgotten(OneBlock(true));
    UnreadableTableLosesDigest(OneBlock(true));
  }

  // ---------------------------------------------------------------- sessions of more than 2^27 blocks

  // Every block of a session is compared with its own previous digest exactly when there are at
  // most 2^27 blocks.
  lemma ComparesOwnDigest(n: nat)
    ensures (forall i: nat :: i < n ==> CompareOffset(i) / CHECKSUM_SIZE == i) <==> n <= TWO32 / CHECKSUM_SIZE
  {
    if n > TWO32 / CHECKSUM_SIZE {
      assert CompareOffset(TWO32 / CHECKSUM_SIZE) / CHECKSUM_SIZE == 0;
    }
  }

  // Block 2^27 of a larger session is dropped as unchanged whenever block 0 is unchanged.
  lemma ChangedBlockIsDropped(c: Config, table: seq<Digest>)
    requires |table| == |c.prev| == c.n && TWO32 / CHECKSUM_SIZE < c.n
    ensures Unchanged(c, table, TWO32 / CHECKSUM_SIZE) <==> c.prev[0] == table[0]
  {}
}
