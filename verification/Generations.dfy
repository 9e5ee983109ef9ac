/** Forever-incremental backups of a whole volume: a full backup of all its sessions, any number of
    DIFF backups over the same files, and a restore of what they leave. */
module Generations {
  import opened Common
  import opened Pipeline
  import opened Durability
  import opened Convergence
  import opened Geometry
  import opened CopyFiles
  import opened RawIO
  import opened IncrementalChain
  import opened BackupRestore
  import opened Restarts

  // One backup task: the volume as it found it, its runs, and how it ended.
  datatype Backup = Backup(task: Task, volume: seq<byte>, turns: seq<Turn>, end: Machine)

  predicate SessionEnded(s: State) { Succeeded(s) && s.ct.pc.CEnd? && s.ct.pc.completed }

  ghost predicate BackupSession(b: Backup, start: Store, k: nat) {
    && k < |b.task.segs| == |b.task.configs| == |b.end.states|
    && SessionFits(b.task.configs[k], b.task.segs[k], b.task.from, start)
    && b.task.configs[k].hasher && CollisionFree(b.task.configs[k].digest) && SessionEnded(b.end.states[k])
  }

  // Its sessions hash, and have all been run to their end, from where they begin.
  ghost predicate BackupFrom(b: Backup, device: string, size: nat, sessionSize: nat, start: Store, begin: Machine) {
    && |b.volume| == size && b.task.from == OnDevice(device, b.volume)
    && TilesVolume(b.task.segs, size, sessionSize) && size < TWO63
    && |b.task.configs| == |b.task.segs| == |b.end.states|
    && (forall k :: 0 <= k < |b.task.segs| ==> BackupSession(b, start, k))
    && Leads(b.task, begin, b.turns, b.end)
  }

  ghost predicate BackupOf(b: Backup, device: string, size: nat, sessionSize: nat, start: Store) {
    BackupFrom(b, device, size, sessionSize, start, Begin(b.task, start))
  }

  // A session of the next backup compares with the table that the last one has saved.
  ghost predicate NextOf(c: Config, s: State, d: Config) {
    && d.mode.Diff? && 0 < d.blockSize == c.blockSize && d.digest == c.digest && s.files.tableFile.Some?
    && LoadPrevious(s.files.tableFile.value, d.size, d.blockSize, d.n) == Some(d.prev)
  }

  ghost predicate Builds(b: Backup, next: Backup) {
    && |next.task.configs| == |b.task.configs| == |b.end.states|
    && forall k :: 0 <= k < |b.task.configs| ==> NextOf(b.task.configs[k], b.end.states[k], next.task.configs[k])
  }

  // The sessions of the next backup start on the copy that the last one has left, once all its
  // checkpoints have been cleared.
  ghost predicate BeginsAfter(b: Backup, next: Backup, begin: Machine) {
    && begin.onto == b.end.onto
    && |begin.states| == |next.task.configs| == |b.task.configs| == |b.end.states|
    && forall k :: 0 <= k < |begin.states| ==>
         StartsOver(b.task.configs[k], b.end.states[k], next.task.configs[k], begin.states[k])
  }

  // What backup k finds.
  function StartOf(bs: seq<Backup>, k: nat, copy: Store): Store
    requires k <= |bs|
  {
    if k == 0 then copy else bs[k - 1].end.onto
  }

  ghost predicate AllDirect(b: Backup) { forall j :: 0 <= j < |b.task.configs| ==> b.task.configs[j].mode.Direct? }

  ghost predicate LinkOf(bs: seq<Backup>, device: string, size: nat, sessionSize: nat, copy: Store, k: nat)
    requires k < |bs|
  {
    var start := StartOf(bs, k, copy);
    if k == 0 then BackupOf(bs[0], device, size, sessionSize, start) && AllDirect(bs[0])
    else
      && Builds(bs[k - 1], bs[k])
      && exists begin ::
           BeginsAfter(bs[k - 1], bs[k], begin) && BackupFrom(bs[k], device, size, sessionSize, start, begin)
  }

  // A full backup, and DIFF backups each on top of the one before.
  ghost predicate ChainOf(bs: seq<Backup>, device: string, size: nat, sessionSize: nat, copy: Store) {
    && bs != [] && Distinct(copy.format, copy.path)
    && forall k :: 0 <= k < |bs| ==> LinkOf(bs, device, size, sessionSize, copy, k)
  }

  // ---------------------------------------------------------------- one backup

  ghost predicate Truthful(b: Backup) {
    forall k :: 0 <= k < |b.task.configs| ==> ValidConfig(b.task.configs[k]) && PreviousTruthful(b.task.configs[k])
  }

  // A session has left the volume's bytes in its file, and their digests in its table.
  ghost predicate SessionHolds(b: Backup, k: nat) {
    && k < |b.task.segs| == |b.task.configs| == |b.end.states|
    && HasRoom(b.task.from, b.task.segs[k]) && HasRoom(b.end.onto, b.task.segs[k])
    && BytesOf(b.end.onto, b.task.segs[k]) == BytesOf(b.task.from, b.task.segs[k])
    && b.end.states[k].files.tableFile == Some(Digests(b.task.configs[k]))
    && b.end.states[k].copy == b.end.states[k].files.disk == b.task.configs[k].vol
    && OnlyItsOwn(b.task.configs[k], b.end.states[k].files)
  }

  ghost predicate BackupHolds(b: Backup) { forall k :: 0 <= k < |b.task.segs| ==> SessionHolds(b, k) }

  lemma IsTask(b: Backup, device: string, size: nat, sessionSize: nat, start: Store)
    requires BackupOf(b, device, size, sessionSize, start) && Truthful(b)
    ensures TaskOf(b.task, size, sessionSize, start) && AllSucceeded(b.end)
  {
    forall k | 0 <= k < |b.task.segs| ensures SessionAt(b.task, start, k) && Succeeded(b.end.states[k]) {
      assert BackupSession(b, start, k);
    }
  }

  lemma SessionSaved(c: Config, s: State)
    requires ValidConfig(c) && TrustedInv(c, {}, s) && SessionEnded(s) && c.hasher
    requires PreviousTruthful(c) && SkipsRightly(c) && CollisionFree(c.digest)
    ensures s.files.tableFile == Some(Digests(c))
    ensures s.copy == s.files.disk == c.vol && OnlyItsOwn(c, s.files)
  {
    SuccessfulState(c, s);
    TargetIsVolume(c);
    assert s.table == Digests(c);
    assert s.copy == c.vol;
  }

  lemma EndsWell(b: Backup, device: string, size: nat, sessionSize: nat, start: Store)
    requires BackupOf(b, device, size, sessionSize, start) && Truthful(b) && Distinct(start.format, start.path)
    ensures BackupHolds(b) && SameFiles(start, b.end.onto)
  {
    IsTask(b, device, size, sessionSize, start);
    TaskCopies(b.task, size, sessionSize, start, b.turns, b.end);
    BeginInStep(b.task, size, sessionSize, start);
    LeadsKeeps(b.task, Begin(b.task, start), b.turns, b.end, size, sessionSize, start);
    forall k | 0 <= k < |b.task.segs| ensures SessionHolds(b, k) {
      assert InStep(b.task, b.end, k) && BackupSession(b, start, k);
      SessionSaved(b.task.configs[k], b.end.states[k]);
    }
  }

  // ---------------------------------------------------------------- the next one

  lemma SegEnds(segs: seq<CopySegment>, size: nat, sessionSize: nat, k: nat)
    requires TilesVolume(segs, size, sessionSize) && size < TWO63 && k < |segs|
    ensures segs[k].offset + segs[k].size < TWO64
  {
    OffsetsAreMultiples(segs, size, sessionSize, k);
  }

  // What a session of the next backup writes onto is what the last one has read.
  lemma NextBase(b: Backup, next: Backup, device: string, size: nat, sessionSize: nat, start: Store, begin: Machine,
                 k: nat)
    requires BackupOf(b, device, size, sessionSize, start) && BackupHolds(b)
    requires BackupFrom(next, device, size, sessionSize, b.end.onto, begin) && Builds(b, next) && k < |b.task.segs|
    ensures next.task.segs == b.task.segs && |next.task.configs| == |b.task.segs|
    ensures next.task.configs[k].n == b.task.configs[k].n && next.task.configs[k].base == b.task.configs[k].vol
  {
    SplitIsUnique(next.task.segs, b.task.segs, size, sessionSize);
    var c, d, seg := b.task.configs[k], next.task.configs[k], b.task.segs[k];
    assert BackupSession(b, start, k) && BackupSession(next, b.end.onto, k);
    assert SessionHolds(b, k) && NextOf(c, b.end.states[k], d);
    OffsetsAreMultiples(b.task.segs, size, sessionSize, k);
    SegEnds(b.task.segs, size, sessionSize, k);
    SessionBlocks(c, seg, b.task.from, c.vol);
    SessionBlocks(d, seg, b.end.onto, d.base);
  }

  // So it begins as if there had been no backup before it.
  lemma NextBeginsAfresh(b: Backup, next: Backup, device: string, size: nat, sessionSize: nat, start: Store,
                         begin: Machine)
    requires BackupOf(b, device, size, sessionSize, start) && BackupHolds(b)
    requires BackupFrom(next, device, size, sessionSize, b.end.onto, begin) && Builds(b, next)
    requires BeginsAfter(b, next, begin)
    ensures begin == Begin(next.task, b.end.onto)
  {
    forall k | 0 <= k < |begin.states| ensures begin.states[k] == Init(next.task.configs[k]) {
      NextBase(b, next, device, size, sessionSize, start, begin, k);
      assert SessionHolds(b, k);
      StartsOverAfresh(b.task.configs[k], b.end.states[k], next.task.configs[k], begin.states[k]);
    }
    assert begin.states == Begin(next.task, b.end.onto).states;
  }

  lemma NextIsTruthful(b: Backup, next: Backup, device: string, size: nat, sessionSize: nat, start: Store)
    requires BackupOf(b, device, size, sessionSize, start) && BackupHolds(b)
    requires BackupOf(next, device, size, sessionSize, b.end.onto) && Builds(b, next)
    ensures Truthful(next)
  {
    forall k | 0 <= k < |next.task.configs|
      ensures ValidConfig(next.task.configs[k]) && PreviousTruthful(next.task.configs[k])
    {
      NextBase(b, next, device, size, sessionSize, start, Begin(next.task, b.end.onto), k);
      assert BackupSession(next, b.end.onto, k) && BackupSession(b, start, k);
      assert SessionHolds(b, k) && NextOf(b.task.configs[k], b.end.states[k], next.task.configs[k]);
      LoadedDescribes(b.task.configs[k], next.task.configs[k]);
    }
  }

  // ---------------------------------------------------------------- the chain

  ghost predicate Settled(b: Backup, copy: Store) {
    Truthful(b) && BackupHolds(b) && SameFiles(copy, b.end.onto)
  }

  lemma FirstSettles(b: Backup, device: string, size: nat, sessionSize: nat, copy: Store)
    requires BackupOf(b, device, size, sessionSize, copy) && AllDirect(b) && Distinct(copy.format, copy.path)
    ensures Settled(b, copy)
  {
    forall k | 0 <= k < |b.task.configs| ensures ValidConfig(b.task.configs[k]) && PreviousTruthful(b.task.configs[k]) {
      assert BackupSession(b, copy, k);
    }
    EndsWell(b, device, size, sessionSize, copy);
  }

  lemma NextSettles(b: Backup, next: Backup, device: string, size: nat, sessionSize: nat, start: Store, copy: Store)
    requires BackupOf(b, device, size, sessionSize, start) && Settled(b, copy) && Distinct(copy.format, copy.path)
    requires BackupOf(next, device, size, sessionSize, b.end.onto) && Builds(b, next)
    ensures Settled(next, copy)
  {
    NextIsTruthful(b, next, device, size, sessionSize, start);
    EndsWell(next, device, size, sessionSize, b.end.onto);
  }

  // Every backup of the chain begins afresh, and after it the files hold the volume as it found it.
  lemma {:induction false} ChainHolds(bs: seq<Backup>, device: string, size: nat, sessionSize: nat, copy: Store, k: nat)
    requires ChainOf(bs, device, size, sessionSize, copy) && k < |bs|
    ensures BackupOf(bs[k], device, size, sessionSize, StartOf(bs, k, copy)) && Settled(bs[k], copy)
  {
    assert LinkOf(bs, device, size, sessionSize, copy, k);
    if k == 0 {
      FirstSettles(bs[0], device, size, sessionSize, copy);
    } else {
      ChainHolds(bs, device, size, sessionSize, copy, k - 1);
      var b, start := bs[k - 1], StartOf(bs, k - 1, copy);
      var begin :|
        BeginsAfter(b, bs[k], begin) && BackupFrom(bs[k], device, size, sessionSize, StartOf(bs, k, copy), begin);
      NextBeginsAfresh(b, bs[k], device, size, sessionSize, start, begin);
      NextSettles(b, bs[k], device, size, sessionSize, start, copy);
    }
  }

  // A restore of what the chain leaves gives back the volume as the last backup found it.
  lemma ChainThenRestore(bs: seq<Backup>, device: string, size: nat, sessionSize: nat, copy: Store,
                         onDevice: string, target: seq<byte>, restore: Task, turns: seq<Turn>, m: Machine)
    requires ChainOf(bs, device, size, sessionSize, copy) && |target| == size
    requires RestoredFrom(restore, bs[|bs| - 1].end.onto, onDevice, target, sessionSize, turns, m)
    ensures onDevice in m.onto.files && m.onto.files[onDevice] == bs[|bs| - 1].volume
  {
    var k := |bs| - 1;
    var b, start := bs[k], StartOf(bs, k, copy);
    ChainHolds(bs, device, size, sessionSize, copy, k);
    assert LinkOf(bs, device, size, sessionSize, copy, k);
    if k > 0 { ChainHolds(bs, device, size, sessionSize, copy, k - 1); }
    IsTask(b, device, size, sessionSize, start);
    BackupThenRestore(device, b.volume, sessionSize, start, b.task, b.turns, b.end,
                      onDevice, target, restore, turns, m);
  }
}
