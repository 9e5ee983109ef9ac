/** One backup or restore session as a labelled transition system.

    The threads are the reader, the hasher workers, the writer and the control thread that
    takes checkpoints. A step makes at most one access to memory that another thread can see
    change: a queue, the allocation table, a byte of a bitmap, a flag or the checksum table. What
    a step does besides is private to its thread (the buffer it holds, its own status, the
    writer's failure count) or only ever added to atomically and read for statistics (the
    counters). A restore session is the same pipeline with the hasher disabled. */
module Pipeline {
  import opened Common

  // ---------------------------------------------------------------- configuration

  datatype Mode = Direct | Diff

  datatype Config = Config(
    n: nat,                     // VolumeTaskSession::TotalBlocks
    size: nat, blockSize: nat,  // session size and block size in bytes
    hasher: bool, workers: nat, mode: Mode,
    skipEmpty: bool, checkpoint: bool,
    vol: seq<Block>,            // what the source holds, block by block
    base: seq<Block>,           // what the target holds before the first run
    prev: seq<Digest>,          // the previous checksum table as loaded
    digest: Block -> Digest)

  ghost predicate ValidConfig(c: Config) {
    && 0 < c.size && 0 < c.blockSize && 0 < c.n == TotalBlocks(c.size, c.blockSize)
    && ALLOCATOR_BLOCKS * c.blockSize < TWO32    // the buffers fit into the allocator's pool
    && |c.vol| == |c.base| == |c.prev| == c.n
    && (if c.hasher then 0 < c.workers else c.workers == 0)
    && (c.mode.Diff? ==> c.hasher)
    && (forall i :: 0 <= i < c.n ==> |c.vol[i]| == |c.base[i]| > 0)
  }

  // Length of block i: only the last one may be short.
  function Len(c: Config, i: nat): nat {
    if i * c.blockSize + c.blockSize <= c.size then c.blockSize
    else if i * c.blockSize <= c.size then c.size - i * c.blockSize
    else 0
  }

  // The comparison offset is computed in 32 bits, the store address in 64.
  function CompareOffset(index: nat): (r: nat)
    ensures r < TWO32
    ensures r == CHECKSUM_SIZE * index <==> index < TWO32 / CHECKSUM_SIZE
    ensures r / CHECKSUM_SIZE <= index
  {
    (CHECKSUM_SIZE * (index % TWO32)) % TWO32
  }

  // ---------------------------------------------------------------- state

  datatype Status = Running | Succeed | Aborting | Aborted | Failed

  predicate Terminal(st: Status) { st.Succeed? || st.Aborted? || st.Failed? }

  // StatefulTask::Abort leaves a final status alone.
  function AbortStatus(st: Status): Status { if Terminal(st) then st else Aborting }

  // VolumeConsumeBlock: the buffer slot and the block index; offset and length follow from the index.
  datatype Item = Item(slot: nat, index: nat)

  datatype Queue = Queue(items: seq<Item>, finished: bool)

  datatype ReaderPc =
    | RCheck | RPause | RSkip | RFetch | RRead(slot: nat) | RPush(slot: nat) | RCount | RFin | RDone

  datatype WorkerPc =
    | WInit | WLoop | WPop | WHash(b: Item) | WCompare(b: Item)
    | WFree(b: Item) | WLoad(i: nat) | WStore(i: nat, bits: set<nat>)
    | WCharge(b: Item) | WPush(b: Item) | WExit | WTest | WFinQ | WDone

  datatype WriterPc =
    | NTop | NPop | NGot(b: Item) | NFail(b: Item) | NSetW(b: Item) | NLoad(b: Item)
    | NStore(b: Item, bits: set<nat>) | NFree(b: Item) | NCount(i: nat) | NFinal | NDone

  datatype Snap = Snap(processed: set<nat>, written: set<nat>)

  // What a snapshot is taken for: the one that is finally kept, the newer one that
  // FlushSessionBitmap takes behind it, or the one after the session has ended.
  datatype Purpose = First | Second(older: Snap) | Final(tableSaved: bool)

  datatype ControlPc =
    | CIdle
    | CCopyP(k: nat, p: set<nat>, why: Purpose)
    | CCopyW(k: nat, p: set<nat>, w: set<nat>, why: Purpose)
    | CTable(snap: Snap) | CFsync(snap: Snap)
    | CSaveNew(newer: Snap, older: Snap) | CSaveOld(older: Snap) | CResume
    | FTable | FFsync(tableSaved: bool) | FSave(snap: Snap, tableSaved: bool)
    | CAbort(k: nat) | CEnd(completed: bool, tableSaved: bool)

  // Where a block is. Written and Dropped blocks are done; a Lost one is skipped by a failed writer.
  datatype Loc =
    | Todo | Restored | AtReader | AtHashQueue | AtWorker(j: nat) | AtWriteQueue | AtWriter
    | Dropped | Written | Lost

  datatype Counters = Counters(
    bytesToRead: int, bytesRead: int, blocksToHash: int, blocksHashed: int,
    bytesToWrite: int, bytesWritten: int)

  datatype ReaderState = ReaderState(pc: ReaderPc, cur: nat, status: Status)

  datatype HasherState = HasherState(ws: seq<WorkerPc>, running: int, status: Status)

  datatype WriterState = WriterState(pc: WriterPc, status: Status, failed: bool, fails: nat)

  // VolumeBlockAllocator: the allocation table, the buffers, and which block each slot was given to.
  datatype Pool = Pool(alloc: seq<bool>, buf: seq<Block>, holder: seq<int>)

  datatype ControlState = ControlState(pc: ControlPc, pause: bool, rabort: bool, habort: bool, nabort: bool)

  // What survives a crash.
  datatype Files = Files(
    disk: seq<Block>,           // the target as it stood at the last fsync
    tableFile: Option<seq<Digest>>, ckptFile: Option<Snap>,
    fileBad: bool,              // history: the checkpoint file may name blocks that are wrong
    tableBad: bool,             // history: it may name blocks whose saved digests are wrong
    syncBad: bool)              // history: an fsync has failed since the machine came up

  datatype History = History(
    loc: seq<Loc>, start: Counters, refused: bool,
    restored: set<nat>, restoredWritten: set<nat>,    // the bits the run started from
    memBad: bool,               // the bits may name wrong blocks: a Write failed, or a bad file was loaded
    hashBad: bool)              // the table holds wrong digests: of other bytes, or of a bad file

  datatype State = State(
    rd: ReaderState, hs: HasherState, wr: WriterState,
    hq: Queue, wq: Queue, pool: Pool,
    bits: Snap, table: seq<Digest>,
    copy: seq<Block>,           // the target as the process sees it
    cnt: Counters, ct: ControlState, files: Files, hist: History)

  // ---------------------------------------------------------------- helpers

  function Capacity(n: nat): nat { n / 8 + 1 }

  // The bits of x that live in byte k of the bitmap.
  function ByteOf(x: set<nat>, k: nat): set<nat> { set i | i in x && i / 8 == k }

  // Storing byte k back after or-ing one bit into a value loaded earlier.
  function StoreByte(x: set<nat>, i: nat, loaded: set<nat>): set<nat> {
    (x - ByteOf(x, i / 8)) + loaded + {i}
  }

  function FirstFreeFrom(alloc: seq<bool>, k: nat): (r: nat)
    requires k <= |alloc|
    ensures k <= r <= |alloc|
    ensures r < |alloc| ==> !alloc[r]
    ensures forall i :: k <= i < r ==> alloc[i]
    decreases |alloc| - k
  {
    if k == |alloc| || !alloc[k] then k else FirstFreeFrom(alloc, k + 1)
  }

  function FirstFree(alloc: seq<bool>): (r: nat)
    ensures r <= |alloc|
    ensures r < |alloc| ==> !alloc[r]
    ensures forall k :: 0 <= k < r ==> alloc[k]
  {
    FirstFreeFrom(alloc, 0)
  }

  function FirstUnsetFrom(x: set<nat>, n: nat, k: nat): (r: nat)
    requires k <= Capacity(n) * 8
    requires forall i :: 0 <= i < k ==> i in x
    ensures k <= r <= Capacity(n) * 8
    ensures r !in x || r == Capacity(n) * 8
    ensures forall i :: 0 <= i < r ==> i in x
    decreases Capacity(n) * 8 - k
  {
    if k == Capacity(n) * 8 || k !in x then k else FirstUnsetFrom(x, n, k + 1)
  }

  // Bitmap::FirstIndexUnset over the capacity of the bitmap.
  function FirstUnset(x: set<nat>, n: nat): (r: nat)
    ensures r !in x || r == Capacity(n) * 8
    ensures r <= Capacity(n) * 8
    ensures forall k :: 0 <= k < r ==> k in x
  {
    FirstUnsetFrom(x, n, 0)
  }

  predicate CanPush(q: Queue) { q.finished || |q.items| < QUEUE_SIZE }

  function Push(q: Queue, b: Item): Queue {
    if q.finished then q else q.(items := q.items + [b])
  }

  predicate CanPop(q: Queue) { q.items != [] || q.finished }

  predicate InRange(c: Config, b: Item) { b.index < c.n && b.slot < ALLOCATOR_BLOCKS }

  predicate Sized(c: Config, s: State) {
    && |s.hist.loc| == |s.table| == |s.copy| == |s.files.disk| == |c.vol| == |c.prev| == c.n
    && |s.pool.alloc| == |s.pool.holder| == |s.pool.buf| == ALLOCATOR_BLOCKS
    && |s.hs.ws| == c.workers
  }

  // VolumeBlockAllocator::BlockAlloc and BlockFree on one slot.
  function Take(p: Pool, slot: nat, index: nat): Pool
    requires slot < |p.alloc| && slot < |p.holder|
  {
    p.(alloc := p.alloc[slot := true], holder := p.holder[slot := index])
  }

  function Free(p: Pool, slot: nat): Pool
    requires slot < |p.alloc| && slot < |p.holder|
  {
    p.(alloc := p.alloc[slot := false], holder := p.holder[slot := -1])
  }

  function Move(h: History, i: nat, to: Loc): History
    requires i < |h.loc|
  {
    h.(loc := h.loc[i := to])
  }

  // A push that the queue refuses loses the block.
  function Pushed(h: History, i: nat, q: Queue, to: Loc): History
    requires i < |h.loc|
  {
    h.(loc := h.loc[i := if q.finished then Lost else to], refused := h.refused || q.finished)
  }

  // ---------------------------------------------------------------- reader

  predicate ReaderCan(c: Config, s: State, fail: bool) {
    && Sized(c, s)
    && match s.rd.pc
       case RSkip => s.rd.cur < c.n
       case RFetch => s.rd.cur < c.n && (FirstFree(s.pool.alloc) < ALLOCATOR_BLOCKS || fail)
       case RRead(slot) => s.rd.cur < c.n && slot < ALLOCATOR_BLOCKS
       case RPush(slot) => s.rd.cur < c.n && slot < ALLOCATOR_BLOCKS && CanPush(if c.hasher then s.hq else s.wq)
       case RDone => false
       case _ => true
  }

  // `fail`: the buffer wait times out, or the read fails.
  function ReaderStep(c: Config, s: State, fail: bool): State
    requires ReaderCan(c, s, fail)
  {
    var rd := s.rd;
    match rd.pc
    case RCheck =>
      if rd.cur >= c.n then s.(rd := rd.(status := Succeed, pc := RFin))
      else if s.ct.rabort then s.(rd := rd.(status := Aborted, pc := RFin))
      else s.(rd := rd.(pc := RPause))
    case RPause => s.(rd := rd.(pc := if s.ct.pause then RCheck else RSkip))
    case RSkip =>
      if c.checkpoint && rd.cur in s.bits.processed then s.(rd := rd.(cur := rd.cur + 1, pc := RCheck))
      else s.(rd := rd.(pc := RFetch))
    case RFetch =>
      var slot := FirstFree(s.pool.alloc);
      if slot < ALLOCATOR_BLOCKS then
        s.(pool := Take(s.pool, slot, rd.cur), hist := Move(s.hist, rd.cur, AtReader), rd := rd.(pc := RRead(slot)))
      else s.(rd := rd.(status := Failed, pc := RFin))
    case RRead(slot) =>
      if fail then s.(rd := rd.(status := Failed, pc := RFin))
      else
        s.(pool := s.pool.(buf := s.pool.buf[slot := c.vol[rd.cur]]),
           cnt := s.cnt.(bytesRead := s.cnt.bytesRead + Len(c, rd.cur)), rd := rd.(pc := RPush(slot)))
    case RPush(slot) =>
      var b := Item(slot, rd.cur);
      if c.hasher then
        s.(hq := Push(s.hq, b), hist := Pushed(s.hist, rd.cur, s.hq, AtHashQueue), rd := rd.(pc := RCount))
      else
        s.(wq := Push(s.wq, b), hist := Pushed(s.hist, rd.cur, s.wq, AtWriteQueue), rd := rd.(pc := RCount))
    case RCount =>
      var cnt :=
        if c.hasher then s.cnt.(blocksToHash := s.cnt.blocksToHash + 1)
        else s.cnt.(bytesToWrite := s.cnt.bytesToWrite + Len(c, rd.cur));
      s.(cnt := cnt, rd := rd.(cur := rd.cur + 1, pc := RCheck))
    case RFin =>
      if c.hasher then s.(hq := s.hq.(finished := true), rd := rd.(pc := RDone))
      else s.(wq := s.wq.(finished := true), rd := rd.(pc := RDone))
    case RDone => s
  }

  // ---------------------------------------------------------------- hasher workers

  predicate WorkerCan(c: Config, s: State, j: nat) {
    && Sized(c, s) && j < |s.hs.ws|
    && match s.hs.ws[j]
       case WPop => CanPop(s.hq) && (s.hq.items != [] ==> InRange(c, s.hq.items[0]))
       case WHash(b) => InRange(c, b)
       case WCompare(b) => InRange(c, b)
       case WFree(b) => InRange(c, b)
       case WCharge(b) => InRange(c, b)
       case WPush(b) => InRange(c, b) && CanPush(s.wq)
       case WDone => false
       case _ => true
  }

  // The digest at the compared offset equals the previous one.
  predicate Unchanged(c: Config, table: seq<Digest>, i: nat)
    requires i < c.n && |table| == |c.prev| == c.n
  {
    var slot := CompareOffset(i) / CHECKSUM_SIZE;
    c.prev[slot] == table[slot]
  }

  function SetWorker(hs: HasherState, j: nat, w: WorkerPc): HasherState
    requires j < |hs.ws|
  {
    hs.(ws := hs.ws[j := w])
  }

  function WorkerStep(c: Config, s: State, j: nat): State
    requires WorkerCan(c, s, j)
  {
    var hs := s.hs;
    match hs.ws[j]
    case WInit => s.(hs := SetWorker(hs, j, WLoop).(running := hs.running + 1))
    case WLoop =>
      if s.ct.habort then s.(hs := SetWorker(hs, j, WExit).(status := Aborted))
      else s.(hs := SetWorker(hs, j, WPop))
    case WPop =>
      if s.hq.items != [] then
        var b := s.hq.items[0];
        s.(hq := s.hq.(items := s.hq.items[1..]), hist := Move(s.hist, b.index, AtWorker(j)),
           hs := SetWorker(hs, j, WHash(b)))
      else s.(hs := SetWorker(hs, j, WExit).(status := Succeed))
    case WHash(b) =>
      var d := c.digest(s.pool.buf[b.slot]);
      s.(table := s.table[b.index := d], hist := s.hist.(hashBad := s.hist.hashBad || d != c.digest(c.vol[b.index])),
         cnt := s.cnt.(blocksHashed := s.cnt.blocksHashed + 1), hs := SetWorker(hs, j, WCompare(b)))
    case WCompare(b) =>
      s.(hs := SetWorker(hs, j, if c.mode.Diff? && Unchanged(c, s.table, b.index) then WFree(b) else WCharge(b)))
    case WFree(b) =>
      s.(pool := Free(s.pool, b.slot), hist := Move(s.hist, b.index, Dropped), hs := SetWorker(hs, j, WLoad(b.index)))
    case WLoad(i) => s.(hs := SetWorker(hs, j, WStore(i, ByteOf(s.bits.processed, i / 8))))
    case WStore(i, loaded) =>
      s.(bits := s.bits.(processed := StoreByte(s.bits.processed, i, loaded)), hs := SetWorker(hs, j, WLoop))
    case WCharge(b) =>
      s.(cnt := s.cnt.(bytesToWrite := s.cnt.bytesToWrite + Len(c, b.index)), hs := SetWorker(hs, j, WPush(b)))
    case WPush(b) =>
      s.(wq := Push(s.wq, b), hist := Pushed(s.hist, b.index, s.wq, AtWriteQueue), hs := SetWorker(hs, j, WLoop))
    case WExit => s.(hs := SetWorker(hs, j, WTest).(running := hs.running - 1))
    case WTest => s.(hs := SetWorker(hs, j, if hs.running != 0 then WDone else WFinQ))
    case WFinQ => s.(wq := s.wq.(finished := true), hs := SetWorker(hs, j, WDone))
    case WDone => s
  }

  // ---------------------------------------------------------------- writer

  // The checkpoint file calls the block done.
  predicate InCheckpoint(f: Files, i: nat) { f.ckptFile.Some? && i in f.ckptFile.value.processed }

  predicate WriterCan(c: Config, s: State) {
    && Sized(c, s)
    && match s.wr.pc
       case NPop => CanPop(s.wq) && (s.wq.items != [] ==> InRange(c, s.wq.items[0]))
       case NGot(b) => InRange(c, b)
       case NFail(b) => InRange(c, b)
       case NFree(b) => InRange(c, b)
       case NDone => false
       case _ => true
  }

  // `fail`: the Write fails and leaves `junk` in the block.
  function WriterStep(c: Config, s: State, fail: bool, junk: Block): State
    requires WriterCan(c, s)
  {
    var wr := s.wr;
    match wr.pc
    case NTop =>
      if s.ct.nabort then s.(wr := wr.(status := Aborted, pc := NFinal)) else s.(wr := wr.(pc := NPop))
    case NPop =>
      if s.wq.items != [] then
        var b := s.wq.items[0];
        s.(wq := s.wq.(items := s.wq.items[1..]), hist := Move(s.hist, b.index, AtWriter), wr := wr.(pc := NGot(b)))
      else s.(wr := wr.(status := Succeed, pc := NFinal))
    case NGot(b) =>
      if wr.failed then
        s.(pool := Free(s.pool, b.slot), hist := Move(s.hist, b.index, Lost),
           wr := wr.(fails := wr.fails + 1, pc := NTop))
      else if !NeedToWrite(c.skipEmpty, s.pool.buf[b.slot]) then
        s.(hist := Move(s.hist, b.index, Written), wr := wr.(pc := NSetW(b)))
      else if !fail then
        s.(copy := s.copy[b.index := s.pool.buf[b.slot]], hist := Move(s.hist, b.index, Written),
           wr := wr.(pc := NSetW(b)))
      else
        s.(copy := s.copy[b.index := junk], hist := Move(s.hist, b.index, Written).(memBad := true),
           files := s.files.(fileBad := s.files.fileBad || InCheckpoint(s.files, b.index)), wr := wr.(pc := NFail(b)))
    case NFail(b) =>
      // The failed block is freed here and, falling through, once more in NFree.
      s.(pool := Free(s.pool, b.slot), wr := wr.(fails := wr.fails + 1, failed := true, pc := NSetW(b)))
    case NSetW(b) => s.(bits := s.bits.(written := s.bits.written + {b.index}), wr := wr.(pc := NLoad(b)))
    case NLoad(b) => s.(wr := wr.(pc := NStore(b, ByteOf(s.bits.processed, b.index / 8))))
    case NStore(b, loaded) =>
      s.(bits := s.bits.(processed := StoreByte(s.bits.processed, b.index, loaded)), wr := wr.(pc := NFree(b)))
    case NFree(b) => s.(pool := Free(s.pool, b.slot), wr := wr.(pc := NCount(b.index)))
    case NCount(i) =>
      s.(cnt := s.cnt.(bytesWritten := s.cnt.bytesWritten + Len(c, i)), wr := wr.(pc := NTop))
    case NFinal =>
      s.(wr := wr.(status := if wr.status.Succeed? && wr.fails != 0 then Failed else wr.status, pc := NDone))
    case NDone => s
  }

  // ---------------------------------------------------------------- control thread

  datatype Choice = Refresh | Finish | Abort | GiveUp | Clear

  predicate AllTerminal(s: State) { Terminal(s.rd.status) && Terminal(s.hs.status) && Terminal(s.wr.status) }

  predicate ControlCan(c: Config, s: State, choice: Choice) {
    && Sized(c, s)
    && match s.ct.pc
       case CIdle => (
         match choice
         case Refresh => c.checkpoint
         case Finish => AllTerminal(s)
         case Abort => true
         case GiveUp => s.rd.status.Failed? || s.hs.status.Failed? || s.wr.status.Failed?
         case Clear => false)
       case CEnd(completed, _) => completed && choice.Clear?
       case _ => true
  }

  // Where the control thread goes next. `ok`: the file write or the fsync of this step succeeds;
  // nobody looks at the result of an fsync.
  function NextPc(c: Config, s: State, choice: Choice, ok: bool): ControlPc {
    match s.ct.pc
    case CIdle => (
      match choice
      case Refresh => CCopyP(0, {}, First)
      case Finish => FTable
      case Abort => CAbort(0)
      case _ => CEnd(false, false))
    case CCopyP(k, p, why) =>
      if k < Capacity(c.n) then CCopyP(k + 1, p + ByteOf(s.bits.processed, k), why) else CCopyW(0, p, {}, why)
    case CCopyW(k, p, w, why) =>
      if k < Capacity(c.n) then CCopyW(k + 1, p, w + ByteOf(s.bits.written, k), why)
      else (
        match why
        case First => CTable(Snap(p, w))
        case Second(older) => CSaveNew(Snap(p, w), older)
        case Final(tableSaved) => FSave(Snap(p, w), tableSaved))
    case CTable(snap) => if !c.hasher || ok then CFsync(snap) else CResume
    case CFsync(snap) => CCopyP(0, {}, Second(snap))
    case CSaveNew(_, older) => if ok then CSaveOld(older) else CResume
    case CSaveOld(_) => CResume
    case CResume => CIdle
    case FTable => FFsync(!c.hasher || ok)
    case FFsync(tableSaved) => CCopyP(0, {}, Final(tableSaved))
    case FSave(_, tableSaved) => CEnd(true, tableSaved)
    case CAbort(k) => if k < 2 then CAbort(k + 1) else CEnd(false, false)
    case CEnd(_, _) => s.ct.pc
  }

  // What an fsync makes durable. Once one has failed, what was written may be lost although a
  // later one reports success.
  function Synced(f: Files, copy: seq<Block>, ok: bool): Files {
    f.(disk := if ok && !f.syncBad then copy else f.disk, syncBad := f.syncBad || !ok)
  }

  function TableToFile(c: Config, s: State, ok: bool): Files {
    if c.hasher && ok then
      s.files.(tableFile := Some(s.table), tableBad := s.files.tableBad || s.hist.hashBad)
    else s.files
  }

  // What it leaves on disk.
  function NextFiles(c: Config, s: State, ok: bool): Files {
    var f, bad := s.files, s.hist.memBad || s.files.syncBad;
    match s.ct.pc
    case CTable(_) => TableToFile(c, s, ok)
    case CFsync(_) => Synced(f, s.copy, ok)
    case CSaveNew(newer, older) =>
      var more := newer.processed != older.processed;
      if ok then f.(ckptFile := Some(newer), fileBad := bad || more, tableBad := s.hist.hashBad || more) else f
    case CSaveOld(older) => if ok then f.(ckptFile := Some(older), fileBad := bad, tableBad := s.hist.hashBad) else f
    case FTable => TableToFile(c, s, ok)
    case FFsync(_) => Synced(f, s.copy, ok)
    case FSave(snap, tableSaved) =>
      if c.checkpoint && ok then
        f.(ckptFile := Some(snap), fileBad := bad, tableBad := s.hist.hashBad || !tableSaved)
      else f
    case CEnd(_, _) => if c.checkpoint then f.(ckptFile := None, fileBad := false, tableBad := false) else f
    case _ => f
  }

  // VolumeTaskSession::Abort reaches the reader, the hasher and the writer in this order.
  function ControlStep(c: Config, s: State, choice: Choice, ok: bool): State
    requires ControlCan(c, s, choice)
  {
    var ct := s.ct;
    var (r, h, n) := (ct.pc == CAbort(0), ct.pc == CAbort(1), ct.pc == CAbort(2));
    var pause := if ct.pc.CIdle? && choice.Refresh? then true else if ct.pc.CResume? then false else ct.pause;
    s.(ct := ControlState(NextPc(c, s, choice, ok), pause, ct.rabort || r, ct.habort || h, ct.nabort || n),
       files := NextFiles(c, s, ok),
       rd := if r then s.rd.(status := AbortStatus(s.rd.status)) else s.rd,
       hs := if h then s.hs.(status := AbortStatus(s.hs.status)) else s.hs,
       wr := if n then s.wr.(status := AbortStatus(s.wr.status)) else s.wr)
  }

  // ---------------------------------------------------------------- start and restart

  // VolumeTaskCheckpointTrait::RestoreSessionCounter: the byte count behind a set of bits.
  function RestoredBytes(c: Config, count: nat): nat {
    if count == c.n then c.size else count * c.blockSize
  }

  function RestoredCounters(c: Config, bits: Snap): Counters {
    var p := |bits.processed|;
    var w := RestoredBytes(c, |bits.written|);
    Counters(c.size, RestoredBytes(c, p), if c.hasher then p else 0, if c.hasher then p else 0, w, w)
  }

  // The saved table is read back when there is a checkpoint to go with it.
  predicate TableLoads(c: Config, f: Files, readTable: bool) {
    c.hasher && c.checkpoint && f.ckptFile.Some? && readTable && f.tableFile.Some?
  }

  // A checkpoint is used when it exists, and the table behind it could be read.
  predicate Loads(c: Config, f: Files, readTable: bool, readBits: bool) {
    c.checkpoint && f.ckptFile.Some? && readBits && (c.hasher ==> TableLoads(c, f, readTable))
  }

  // InitBackupSessionContext and the start of the threads, on a target as the process finds it.
  function Boot(c: Config, target: seq<Block>, f: Files, readTable: bool, readBits: bool): State {
    var loaded := Loads(c, f, readTable, readBits);
    var bits := if loaded then f.ckptFile.value else Snap({}, {});
    var table := if TableLoads(c, f, readTable) then f.tableFile.value else seq(c.n, _ => ZERO_DIGEST);
    var start := if loaded then RestoredCounters(c, bits) else Counters(c.size, 0, 0, 0, 0, 0);
    State(
      ReaderState(RCheck, if c.checkpoint then FirstUnset(bits.processed, c.n) else 0, Running),
      HasherState(seq(c.workers, _ => WInit), 0, if c.hasher then Running else Succeed),
      WriterState(NTop, Running, false, 0),
      Queue([], false), Queue([], false),
      Pool(seq(ALLOCATOR_BLOCKS, _ => false), seq(ALLOCATOR_BLOCKS, _ => []), seq(ALLOCATOR_BLOCKS, _ => -1)),
      bits, table, target, start,
      ControlState(CIdle, false, false, false, false),
      // The old bits outlive a table that could not be read back.
      f.(tableBad := f.tableBad || (c.hasher && f.ckptFile.Some? && !TableLoads(c, f, readTable))),
      History(seq(c.n, i => if i in bits.processed then Restored else Todo), start, false,
              bits.processed, bits.written, loaded && f.fileBad, loaded && f.tableBad))
  }

  function Init(c: Config): State {
    Boot(c, c.base, Files(c.base, None, None, false, false, false), false, false)
  }

  // A crash of the machine keeps the blocks on which memory and disk agree; any other block may
  // be torn.
  function AfterCrash(s: State, torn: seq<Block>): seq<Block>
    requires |s.copy| == |s.files.disk| == |torn|
  {
    seq(|s.copy|, i requires 0 <= i < |s.copy| => if s.copy[i] == s.files.disk[i] then s.copy[i] else torn[i])
  }

  // What the next run finds. When only the process dies, all it wrote is there to be read, but no
  // more durable than it was.
  function Found(s: State, torn: seq<Block>, machine: bool): seq<Block>
    requires |s.copy| == |s.files.disk| == |torn|
  {
    if machine then AfterCrash(s, torn) else s.copy
  }

  function FilesFound(s: State, torn: seq<Block>, machine: bool): Files
    requires |s.copy| == |s.files.disk| == |torn|
  {
    if machine then s.files.(disk := AfterCrash(s, torn), syncBad := false) else s.files
  }

  // ---------------------------------------------------------------- runs

  datatype Action =
    | Reader(fail: bool)
    | Worker(j: nat)
    | Writer(fail: bool, junk: Block)
    | Control(choice: Choice, ok: bool)
    | Crash(torn: seq<Block>, machine: bool, readTable: bool, readBits: bool)

  predicate Enabled(c: Config, s: State, a: Action) {
    match a
    case Reader(fail) => ReaderCan(c, s, fail)
    case Worker(j) => WorkerCan(c, s, j)
    case Writer(fail, junk) => WriterCan(c, s) && (s.wr.pc.NGot? && fail ==> |junk| == |c.vol[s.wr.pc.b.index]|)
    case Control(choice, _) => ControlCan(c, s, choice)
    case Crash(torn, _, _, _) => Sized(c, s) && |torn| == c.n && forall i :: 0 <= i < c.n ==> |torn[i]| == |c.vol[i]|
  }

  function Next(c: Config, s: State, a: Action): State
    requires Enabled(c, s, a)
  {
    match a
    case Reader(fail) => ReaderStep(c, s, fail)
    case Worker(j) => WorkerStep(c, s, j)
    case Writer(fail, junk) => WriterStep(c, s, fail, junk)
    case Control(choice, ok) => ControlStep(c, s, choice, ok)
    case Crash(torn, machine, readTable, readBits) =>
      Boot(c, Found(s, torn, machine), FilesFound(s, torn, machine), readTable, readBits)
  }

  // s' is reached from s by the given steps, in order; a Crash among them starts a new run. A
  // failed Write and a torn block leave any bytes, but as many as the block has.
  ghost predicate Reaches(c: Config, s: State, steps: seq<Action>, s': State)
    decreases |steps|
  {
    var last := |steps| - 1;
    if steps == [] then s == s'
    else if last == 0 then Enabled(c, s, steps[0]) && Next(c, s, steps[0]) == s'
    else exists mid :: Reaches(c, s, steps[..last], mid) && Reaches(c, mid, steps[last..], s')
  }
}
