/** What the session counters say. */
module Accounting {
  import opened Common
  import opened Pipeline
  import opened Stages
  import opened Durability
  import opened Session
  import opened Convergence
  import opened Totals
  import Counting
  import Cut
  import Handshake
  import W = WorkerSums

  // Bytes charged and not yet counted as written are the blocks between the charge and the
  // count, at every step; only without a hasher is the charge made after the push.
  lemma BytesAreConserved(c: Config, steps: seq<Action>, s: State)
    requires ValidConfig(c) && Reaches(c, Init(c), steps, s)
    ensures s.cnt.bytesToWrite - s.cnt.bytesWritten ==
            Total(c, BytesPending, s.hist.loc) + W.Sum(c, W.Charged, s.hs.ws) + Counting.Uncounted(c, s.wr)
            - (if !c.hasher && s.rd.pc.RCount? then Len(c, s.rd.cur) else 0)
    ensures c.hasher || !s.rd.pc.RCount? ==> s.cnt.bytesWritten <= s.cnt.bytesToWrite
  {
    ReachableCore(c, steps, s);
    ChargedSplits(c, s.hist.loc);
  }

  lemma WritesBalance(c: Config, s: State)
    requires ValidConfig(c) && Counting.Inv(c, s) && Handshake.Inv(c, s) && Succeeded(s)
    requires forall i :: 0 <= i < c.n ==> Done(s.hist.loc[i])
    requires W.Sum(c, W.Charged, s.hs.ws) == 0
    ensures s.cnt.bytesToWrite == s.cnt.bytesWritten
  {
    ChargedSplits(c, s.hist.loc);
    TotalZero(c, BytesPending, s.hist.loc);
  }

  lemma {:induction false} AllBlocks(c: Config, loc: seq<Loc>)
    requires forall i :: 0 <= i < |loc| ==> !Unread(loc[i]) && !loc[i].AtReader?
    ensures Total(c, BlocksRead, loc) == |loc|
    decreases |loc|
  {
    if loc != [] { AllBlocks(c, loc[..|loc| - 1]); }
  }

  lemma HashesBalance(c: Config, s: State)
    requires ValidConfig(c) && Counting.Inv(c, s) && Handshake.Inv(c, s) && Succeeded(s)
    requires forall i :: 0 <= i < c.n ==> Done(s.hist.loc[i])
    requires forall i :: 0 <= i < c.n ==> (s.hist.loc[i].Restored? <==> i in s.hist.restored)
    requires W.Sum(c, W.Unhashed, s.hs.ws) == 0
    ensures s.cnt.blocksToHash == s.cnt.blocksHashed
    ensures c.hasher && s.hist.restored == {} ==> s.cnt.blocksHashed == c.n
  {
    TotalAgrees(c, BlocksRead, BlocksPopped, s.hist.loc);
    if s.hist.restored == {} { AllBlocks(c, s.hist.loc); }
  }

  lemma {:induction false} ReadPlusRestored(c: Config, loc: seq<Loc>, restored: set<nat>)
    requires forall i :: 0 <= i < |loc| ==> Done(loc[i]) && (loc[i].Restored? <==> i in restored)
    ensures Total(c, BytesRead, loc) + BytesOf(c, restored, |loc|) == Total(c, AllBytes, loc)
    decreases |loc|
  {
    if loc != [] { ReadPlusRestored(c, loc[..|loc| - 1], restored); }
  }

  lemma ReadsBalance(c: Config, s: State)
    requires ValidConfig(c) && Counting.Inv(c, s) && Handshake.Inv(c, s) && Succeeded(s)
    requires forall i :: 0 <= i < c.n ==> Done(s.hist.loc[i])
    requires forall i :: 0 <= i < c.n ==> (s.hist.loc[i].Restored? <==> i in s.hist.restored)
    requires forall i :: i in s.hist.restored ==> i < c.n
    ensures s.cnt.bytesRead == c.size <==> CountsExactly(c, s.hist.restored)
  {
    ReadPlusRestored(c, s.hist.loc, s.hist.restored);
    AllBytesPrefix(c, s.hist.loc);
    RestoredBytesExact(c, s.hist.restored);
  }

  // Blocks that the checkpoint has as written, but not as processed, and that were written again.
  ghost function WrittenAgain(s: State): set<nat> {
    set i | i in s.hist.restoredWritten && i < |s.hist.loc| && s.hist.loc[i].Written?
  }

  lemma {:induction false} WritesAddUp(c: Config, loc: seq<Loc>, before: set<nat>, after: set<nat>, again: set<nat>)
    requires forall i :: 0 <= i < |loc| ==> (i in after <==> i in before || loc[i].Written?)
    requires forall i :: 0 <= i < |loc| ==> (i in again <==> i in before && loc[i].Written?)
    ensures BytesOf(c, before, |loc|) + Total(c, BytesDone, loc)
            == BytesOf(c, after, |loc|) + BytesOf(c, again, |loc|)
    decreases |loc|
  {
    if loc != [] { WritesAddUp(c, loc[..|loc| - 1], before, after, again); }
  }

  lemma {:induction false} NoBytes(c: Config, x: set<nat>, n: nat)
    requires ValidConfig(c) && n <= c.n
    ensures BytesOf(c, x, n) == 0 <==> forall i: nat :: i < n ==> i !in x
  {
    if n > 0 {
      NoBytes(c, x, n - 1);
      BlockEnds(c, n - 1);
    }
  }

  lemma WritesCounted(c: Config, s: State)
    requires ValidConfig(c) && Counting.Inv(c, s) && Cut.NothingLost(c, s) && Cut.WrittenBits(c, s) && s.wr.pc.NDone?
    ensures s.cnt.bytesWritten == BytesOf(c, s.hist.restoredWritten, c.n) + Total(c, BytesDone, s.hist.loc) <==>
            CountsExactly(c, s.hist.restoredWritten)
    ensures CountsExactly(c, s.hist.restoredWritten) ==>
              (s.cnt.bytesWritten == BytesOf(c, s.bits.written, c.n) <==> WrittenAgain(s) == {})
  {
    var again := WrittenAgain(s);
    RestoredBytesExact(c, s.hist.restoredWritten);
    WritesAddUp(c, s.hist.loc, s.hist.restoredWritten, s.bits.written, again);
    NoBytes(c, again, c.n);
    assert again != {} ==> exists i: nat :: i < c.n && i in again;
  }

  lemma QuietSums(c: Config, s: State)
    requires forall j :: 0 <= j < |s.hs.ws| ==> !HasItem(s.hs.ws[j])
    ensures W.Sum(c, W.Charged, s.hs.ws) == 0 && W.Sum(c, W.Unhashed, s.hs.ws) == 0
  {
    W.SumZero(c, W.Charged, s.hs.ws);
    W.SumZero(c, W.Unhashed, s.hs.ws);
  }

  // A run that succeeds has counted every block it read as hashed and every byte it charged as
  // written. The bytes read come out as the session size exactly when the restored part did:
  // always in a run that starts afresh.
  lemma SuccessCounts(c: Config, steps: seq<Action>, s: State)
    requires ValidConfig(c) && Reaches(c, Init(c), steps, s) && Succeeded(s)
    ensures s.cnt.bytesToWrite == s.cnt.bytesWritten
    ensures s.cnt.blocksToHash == s.cnt.blocksHashed
    ensures s.cnt.bytesToRead == c.size
    ensures s.cnt.bytesRead == c.size <==> CountsExactly(c, s.hist.restored)
    ensures c.hasher && s.hist.restored == {} ==> s.cnt.blocksHashed == c.n
    ensures s.cnt.bytesWritten == BytesOf(c, s.hist.restoredWritten, c.n) + Total(c, BytesDone, s.hist.loc) <==>
            CountsExactly(c, s.hist.restoredWritten)
    ensures CountsExactly(c, s.hist.restoredWritten) ==>
              (s.cnt.bytesWritten == BytesOf(c, s.bits.written, c.n) <==> WrittenAgain(s) == {})
  {
    ReachableCore(c, steps, s);
    SuccessMeansDone(c, s);
    QuietSums(c, s);
    WritesBalance(c, s);
    HashesBalance(c, s);
    ReadsBalance(c, s);
    WritesCounted(c, s);
  }

  // What a run starts from, told from the bits it starts from.
  lemma RestartCounts(c: Config, target: seq<Block>, f: Files, readTable: bool, readBits: bool)
    requires ValidConfig(c) && Startable(c, target, f)
    ensures var s := Boot(c, target, f, readTable, readBits);
      && (s.cnt.bytesRead == BytesOf(c, s.bits.processed, c.n) <==> CountsExactly(c, s.bits.processed))
      && (s.cnt.bytesWritten == BytesOf(c, s.bits.written, c.n) <==> CountsExactly(c, s.bits.written))
      && s.cnt.bytesToWrite == s.cnt.bytesWritten && s.cnt.bytesToRead == c.size
      && s.cnt.blocksToHash == s.cnt.blocksHashed == (if c.hasher then |s.bits.processed| else 0)
      && s.hist.restored == s.bits.processed && s.hist.restoredWritten == s.bits.written
  {
    var s := Boot(c, target, f, readTable, readBits);
    RestoredBytesExact(c, s.bits.processed);
    RestoredBytesExact(c, s.bits.written);
  }
}
