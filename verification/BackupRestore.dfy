/** A whole copy: every session of a volume through its pipeline, down to the bytes of the files,
    and the way back. */
module BackupRestore {
  import opened Common
  import opened Pipeline
  import opened Stages
  import opened Durability
  import opened Convergence
  import opened Geometry
  import opened CopyFiles
  import opened RawIO
  import Ownership
  import Session

  // Files by path, and how the bytes of the sessions lie in them. A volume is one file in which
  // every session lies at its own offset, as it does in an image.
  datatype Store = Store(format: CopyFormat, path: nat -> string, files: map<string, seq<byte>>)

  function OnDevice(device: string, volume: seq<byte>): Store {
    Store(IMAGE, _ => device, map[device := volume])
  }

  // There is a file for the session, and it is long enough.
  predicate HasRoom(st: Store, seg: CopySegment) {
    st.path(seg.index) in st.files && Base(CopySide(st.format, seg), seg) + seg.size <= |st.files[st.path(seg.index)]|
  }

  function FileOf(st: Store, seg: CopySegment): seq<byte>
    requires HasRoom(st, seg)
  {
    st.files[st.path(seg.index)]
  }

  // The bytes a store holds for a session.
  function BytesOf(st: Store, seg: CopySegment): (r: seq<byte>)
    requires HasRoom(st, seg)
    ensures |r| == seg.size
  {
    var base := Base(CopySide(st.format, seg), seg);
    FileOf(st, seg)[base..base + seg.size]
  }

  ghost predicate Keeping(st: Store, seg: CopySegment, bytes: seq<byte>) {
    CopyHolds(st.format, st.path, st.files, seg, bytes)
  }

  // ---------------------------------------------------------------- raw writes

  // Where the raw readers and writers go for block i.
  function Place(side: Side, seg: CopySegment, blockSize: nat, i: nat): nat {
    Locate(side.flag, side.shift, seg.offset + i * blockSize)
  }

  function WriteBlocks(side: Side, seg: CopySegment, blockSize: nat, blocks: seq<Block>, k: nat,
                       file: seq<byte>): seq<byte>
    requires k <= |blocks|
  {
    if k == 0 then file
    else
      var before := WriteBlocks(side, seg, blockSize, blocks, k - 1, file);
      WriteAt(before, Place(side, seg, blockSize, k - 1), blocks[k - 1])
  }

  // What a step of a session does to the bytes of its file: the Write of the writer, and what a
  // crash of the machine makes of the blocks that were not on disk yet.
  function Touch(c: Config, s: State, a: Action, side: Side, seg: CopySegment, file: seq<byte>): seq<byte>
    requires Enabled(c, s, a)
  {
    match a
    case Writer(fail, junk) =>
      if s.wr.pc.NGot? && !s.wr.failed && NeedToWrite(c.skipEmpty, s.pool.buf[s.wr.pc.b.slot]) then
        var b := s.wr.pc.b;
        WriteAt(file, Place(side, seg, c.blockSize, b.index), if fail then junk else s.pool.buf[b.slot])
      else file
    case Crash(torn, machine, _, _) =>
      if machine then WriteBlocks(side, seg, c.blockSize, AfterCrash(s, torn), c.n, file) else file
    case _ => file
  }

  // The blocks are what the raw reader finds at their places.
  ghost predicate ReadFrom(side: Side, seg: CopySegment, file: seq<byte>, c: Config, blocks: seq<Block>) {
    && |blocks| == c.n
    && forall i :: 0 <= i < c.n ==>
         var at := Place(side, seg, c.blockSize, i);
         at + Len(c, i) <= |file| && blocks[i] == file[at..at + Len(c, i)]
  }

  lemma {:induction false} JoinSameLength(a: seq<Block>, b: seq<Block>)
    requires |a| == |b| && forall i :: 0 <= i < |a| ==> |a[i]| == |b[i]|
    ensures |Join(a)| == |Join(b)|
  {
    if a != [] { JoinSameLength(a[..|a| - 1], b[..|b| - 1]); }
  }

  lemma ReadIsBlock(side: Side, seg: CopySegment, file: seq<byte>, c: Config, bytes: seq<byte>, i: nat)
    requires Opened(side, seg) && seg.offset + |bytes| < TWO64 && |bytes| == c.size
    requires 0 < c.blockSize && c.n == TotalBlocks(c.size, c.blockSize) && i < c.n
    requires Holds(Base(side, seg), file, bytes)
    ensures var at := Place(side, seg, c.blockSize, i);
      at + Len(c, i) <= |file| && file[at..at + Len(c, i)] == Blocks(bytes, c.blockSize)[i]
  {
    BlockIs(bytes, c.blockSize, i);
    BlockLocation(side, seg, c.blockSize, i);
    ReadFetchesBlock(Base(side, seg), file, bytes, c.blockSize, i);
  }

  // Blocks read one by one are the blocks of the session's bytes.
  lemma ReadIsBlocks(side: Side, seg: CopySegment, file: seq<byte>, c: Config, blocks: seq<Block>, bytes: seq<byte>)
    requires Opened(side, seg) && seg.offset + seg.size < TWO64 && seg.size == c.size == |bytes|
    requires 0 < c.blockSize && c.n == TotalBlocks(c.size, c.blockSize)
    requires Holds(Base(side, seg), file, bytes) && ReadFrom(side, seg, file, c, blocks)
    ensures blocks == Blocks(bytes, c.blockSize)
  {
    forall i | 0 <= i < c.n ensures blocks[i] == Blocks(bytes, c.blockSize)[i] {
      ReadIsBlock(side, seg, file, c, bytes, i);
    }
  }

  lemma WriteAtPlace(side: Side, seg: CopySegment, blockSize: nat, file: seq<byte>, blocks: seq<Block>, i: nat,
                     data: Block)
    requires Aligned(blocks, blockSize) && i < |blocks| && |data| == |blocks[i]|
    requires Opened(side, seg) && seg.offset + |Join(blocks)| < TWO64 && Holds(Base(side, seg), file, Join(blocks))
    ensures var file' := WriteAt(file, Place(side, seg, blockSize, i), data);
      && Holds(Base(side, seg), file', Join(blocks[i := data])) && |Join(blocks[i := data])| == |Join(blocks)|
      && OnlyWithin(Base(side, seg), |Join(blocks)|, file, file')
  {
    StoreIsSplice(blocks, blockSize, i, data);
    BlockLocation(side, seg, blockSize, i);
    WriteStoresBlock(Base(side, seg), file, blocks, blockSize, i, data);
  }

  // The Write of the pipeline is the raw write at the block's volume offset, shifted as the format
  // wants it: after it the file holds what the model's target says.
  lemma PipelineWriteIsRawWrite(c: Config, s: State, fail: bool, junk: Block, side: Side, seg: CopySegment,
                                file: seq<byte>)
    requires Enabled(c, s, Writer(fail, junk)) && Aligned(s.copy, c.blockSize) && LengthsKept(c, s)
    requires s.wr.pc.NGot? && !s.wr.failed ==> Ownership.Owned(c, s.pool, s.wr.pc.b)
    requires Opened(side, seg) && seg.offset + |Join(s.copy)| < TWO64 && Holds(Base(side, seg), file, Join(s.copy))
    ensures var file' := Touch(c, s, Writer(fail, junk), side, seg, file);
      && Holds(Base(side, seg), file', Join(WriterStep(c, s, fail, junk).copy))
      && OnlyWithin(Base(side, seg), |Join(s.copy)|, file, file')
  {
    if s.wr.pc.NGot? && !s.wr.failed && NeedToWrite(c.skipEmpty, s.pool.buf[s.wr.pc.b.slot]) {
      var b := s.wr.pc.b;
      WriteAtPlace(side, seg, c.blockSize, file, s.copy, b.index, if fail then junk else s.pool.buf[b.slot]);
    } else {
      assert WriterStep(c, s, fail, junk).copy == s.copy;
    }
  }

  // The first k blocks are new.
  function Overwritten(was: seq<Block>, blocks: seq<Block>, k: nat): seq<Block>
    requires k <= |blocks| == |was|
  {
    blocks[..k] + was[k..]
  }

  lemma OverwriteNext(was: seq<Block>, blocks: seq<Block>, blockSize: nat, k: nat)
    requires 0 < k <= |blocks| == |was| && Aligned(was, blockSize)
    requires forall i :: 0 <= i < |was| ==> |blocks[i]| == |was[i]|
    ensures Overwritten(was, blocks, k) == Overwritten(was, blocks, k - 1)[k - 1 := blocks[k - 1]]
    ensures var before := Overwritten(was, blocks, k - 1);
      Aligned(before, blockSize) && |Join(before)| == |Join(was)| && |before[k - 1]| == |blocks[k - 1]|
  {
    JoinSameLength(Overwritten(was, blocks, k - 1), was);
  }

  lemma WriteNext(side: Side, seg: CopySegment, blockSize: nat, was: seq<Block>, blocks: seq<Block>, k: nat,
                  start: seq<byte>, file: seq<byte>)
    requires 0 < k <= |blocks| == |was| && Aligned(was, blockSize)
    requires forall i :: 0 <= i < |was| ==> |blocks[i]| == |was[i]|
    requires Opened(side, seg) && seg.offset + |Join(was)| < TWO64
    requires Holds(Base(side, seg), file, Join(Overwritten(was, blocks, k - 1)))
    requires OnlyWithin(Base(side, seg), |Join(was)|, start, file)
    ensures var file' := WriteAt(file, Place(side, seg, blockSize, k - 1), blocks[k - 1]);
      && Holds(Base(side, seg), file', Join(Overwritten(was, blocks, k)))
      && OnlyWithin(Base(side, seg), |Join(was)|, start, file')
  {
    OverwriteNext(was, blocks, blockSize, k);
    WriteAtPlace(side, seg, blockSize, file, Overwritten(was, blocks, k - 1), k - 1, blocks[k - 1]);
  }

  lemma {:induction false} WriteBlocksHolds(side: Side, seg: CopySegment, blockSize: nat, was: seq<Block>,
                                            blocks: seq<Block>, k: nat, file: seq<byte>)
    requires |blocks| == |was| && k <= |blocks| && Aligned(was, blockSize)
    requires forall i :: 0 <= i < |was| ==> |blocks[i]| == |was[i]|
    requires Opened(side, seg) && seg.offset + |Join(was)| < TWO64 && Holds(Base(side, seg), file, Join(was))
    ensures var file' := WriteBlocks(side, seg, blockSize, blocks, k, file);
      && Holds(Base(side, seg), file', Join(Overwritten(was, blocks, k)))
      && OnlyWithin(Base(side, seg), |Join(was)|, file, file')
  {
    if k == 0 {
      assert Overwritten(was, blocks, 0) == was;
    } else {
      WriteBlocksHolds(side, seg, blockSize, was, blocks, k - 1, file);
      WriteNext(side, seg, blockSize, was, blocks, k, file, WriteBlocks(side, seg, blockSize, blocks, k - 1, file));
    }
  }

  lemma TornIsRawWrites(c: Config, s: State, torn: seq<Block>, side: Side, seg: CopySegment, file: seq<byte>)
    requires Enabled(c, s, Crash(torn, true, true, true)) && Aligned(s.copy, c.blockSize) && LengthsKept(c, s)
    requires Opened(side, seg) && seg.offset + |Join(s.copy)| < TWO64 && Holds(Base(side, seg), file, Join(s.copy))
    ensures var file' := WriteBlocks(side, seg, c.blockSize, AfterCrash(s, torn), c.n, file);
      && Holds(Base(side, seg), file', Join(AfterCrash(s, torn)))
      && OnlyWithin(Base(side, seg), |Join(s.copy)|, file, file')
  {
    var blocks := AfterCrash(s, torn);
    WriteBlocksHolds(side, seg, c.blockSize, s.copy, blocks, c.n, file);
    assert Overwritten(s.copy, blocks, c.n) == blocks;
  }

  // Every step of the pipeline does to the bytes what it does to the blocks.
  lemma TouchIsStep(c: Config, s: State, a: Action, side: Side, seg: CopySegment, file: seq<byte>)
    requires ValidConfig(c) && Session.Core(c, s) && Enabled(c, s, a) && Aligned(s.copy, c.blockSize)
    requires Opened(side, seg) && seg.offset + |Join(s.copy)| < TWO64 && Holds(Base(side, seg), file, Join(s.copy))
    ensures var file' := Touch(c, s, a, side, seg, file);
      && Holds(Base(side, seg), file', Join(Next(c, s, a).copy))
      && OnlyWithin(Base(side, seg), |Join(s.copy)|, file, file')
  {
    match a
    case Reader(fail) => assert ReaderStep(c, s, fail).copy == s.copy;
    case Worker(j) => assert WorkerStep(c, s, j).copy == s.copy;
    case Writer(fail, junk) => PipelineWriteIsRawWrite(c, s, fail, junk, side, seg, file);
    case Control(choice, ok) => assert ControlStep(c, s, choice, ok).copy == s.copy;
    case Crash(torn, machine, _, _) => if machine { TornIsRawWrites(c, s, torn, side, seg, file); }
  }

  // ---------------------------------------------------------------- all sessions of a volume

  // The sessions of a volume, the pipeline of each, and what a backup or a restore reads from.
  datatype Task = Task(segs: seq<CopySegment>, configs: seq<Config>, from: Store)

  datatype Machine = Machine(states: seq<State>, onto: Store)

  // One session takes a step. The sessions of a task follow one another, and after a crash the
  // task goes through them again; a crash of the machine is a crash of every session.
  datatype Turn = Turn(k: nat, a: Action)

  ghost predicate SessionFits(c: Config, seg: CopySegment, from: Store, onto: Store) {
    && HasRoom(from, seg) && HasRoom(onto, seg)
    && c.size == seg.size && ValidConfig(c) && Comparable(c) && SkipsRightly(c)
    && (c.mode.Diff? ==> CollisionFree(c.digest))
    && ReadFrom(CopySide(from.format, seg), seg, FileOf(from, seg), c, c.vol)
    && ReadFrom(CopySide(onto.format, seg), seg, FileOf(onto, seg), c, c.base)
  }

  // A session that reads from one store and writes to another.
  ghost predicate SessionOf(c: Config, seg: CopySegment, from: Store, onto: Store) {
    SessionFits(c, seg, from, onto) && PreviousTruthful(c)
  }

  ghost predicate SessionAt(t: Task, onto: Store, k: nat) {
    k < |t.segs| == |t.configs| && SessionOf(t.configs[k], t.segs[k], t.from, onto)
  }

  // Every session reads its blocks from `t.from` and finds its target in `onto`.
  ghost predicate TaskOf(t: Task, volumeSize: nat, sessionSize: nat, onto: Store) {
    && TilesVolume(t.segs, volumeSize, sessionSize) && volumeSize < TWO63 && |t.configs| == |t.segs|
    && forall k :: 0 <= k < |t.segs| ==> SessionAt(t, onto, k)
  }

  function Begin(t: Task, onto: Store): Machine {
    Machine(seq(|t.configs|, k requires 0 <= k < |t.configs| => Init(t.configs[k])), onto)
  }

  ghost predicate CanTurn(t: Task, m: Machine, turn: Turn) {
    && turn.k < |t.segs| == |t.configs| == |m.states| && HasRoom(m.onto, t.segs[turn.k])
    && Enabled(t.configs[turn.k], m.states[turn.k], turn.a)
    && Harmless(t.configs[turn.k], m.states[turn.k], turn.a)
  }

  ghost function AfterTurn(t: Task, m: Machine, turn: Turn): Machine
    requires CanTurn(t, m, turn)
  {
    var c, s, seg := t.configs[turn.k], m.states[turn.k], t.segs[turn.k];
    var file' := Touch(c, s, turn.a, CopySide(m.onto.format, seg), seg, FileOf(m.onto, seg));
    Machine(m.states[turn.k := Next(c, s, turn.a)],
            m.onto.(files := m.onto.files[m.onto.path(seg.index) := file']))
  }

  // m' is reached from m by the given turns, in order.
  ghost predicate Leads(t: Task, m: Machine, turns: seq<Turn>, m': Machine)
    decreases |turns|
  {
    var last := |turns| - 1;
    if turns == [] then m == m'
    else if last == 0 then CanTurn(t, m, turns[0]) && AfterTurn(t, m, turns[0]) == m'
    else exists mid :: Leads(t, m, turns[..last], mid) && Leads(t, mid, turns[last..], m')
  }

  // The pipeline of the session is in order, and the file holds the blocks of its target.
  ghost predicate SessionKept(c: Config, s: State, seg: CopySegment, onto: Store) {
    ValidConfig(c) && TrustedInv(c, {}, s) && Keeping(onto, seg, Join(s.copy))
  }

  ghost predicate InStep(t: Task, m: Machine, k: nat) {
    k < |t.segs| == |t.configs| == |m.states| && SessionKept(t.configs[k], m.states[k], t.segs[k], m.onto)
  }

  // The same files, each as long as it was.
  ghost predicate SameFiles(a: Store, b: Store) {
    && a.format == b.format && a.path == b.path
    && forall p :: p in a.files ==> p in b.files && |b.files[p]| == |a.files[p]|
  }

  ghost predicate AllInStep(t: Task, m: Machine, start: Store) {
    && |m.states| == |t.segs| && SameFiles(start, m.onto)
    && forall k :: 0 <= k < |t.segs| ==> InStep(t, m, k)
  }

  // What a session reads from the store are the blocks of its bytes there.
  lemma SessionBlocks(c: Config, seg: CopySegment, st: Store, blocks: seq<Block>)
    requires HasRoom(st, seg) && seg.offset + seg.size < TWO64 && c.size == seg.size
    requires 0 < c.blockSize && c.n == TotalBlocks(c.size, c.blockSize)
    requires ReadFrom(CopySide(st.format, seg), seg, FileOf(st, seg), c, blocks)
    ensures blocks == Blocks(BytesOf(st, seg), c.blockSize) && Join(blocks) == BytesOf(st, seg)
    ensures Aligned(blocks, c.blockSize)
  {
    var bytes, side := BytesOf(st, seg), CopySide(st.format, seg);
    CopyIsOpened(st.format, seg);
    ReadIsBlocks(side, seg, FileOf(st, seg), c, blocks, bytes);
    JoinBlocks(bytes, c.blockSize);
    BlocksAligned(bytes, c.blockSize);
  }

  lemma SessionEnds(t: Task, volumeSize: nat, sessionSize: nat, onto: Store, k: nat)
    requires TaskOf(t, volumeSize, sessionSize, onto) && k < |t.segs|
    ensures t.segs[k].index == k && t.segs[k].offset + t.segs[k].size <= volumeSize < TWO64
    ensures SessionAt(t, onto, k)
  {
    PrefixAt(t.segs, sessionSize, k);
    OffsetsAreMultiples(t.segs, volumeSize, sessionSize, k);
  }

  lemma SessionBegins(c: Config, seg: CopySegment, onto: Store)
    requires ValidConfig(c) && HasRoom(onto, seg) && seg.offset + seg.size < TWO64 && c.size == seg.size
    requires ReadFrom(CopySide(onto.format, seg), seg, FileOf(onto, seg), c, c.base)
    ensures SessionKept(c, Init(c), seg, onto)
  {
    SessionBlocks(c, seg, onto, c.base);
    StartIsTrusted(c, {});
  }

  lemma BeginInStep(t: Task, volumeSize: nat, sessionSize: nat, onto: Store)
    requires TaskOf(t, volumeSize, sessionSize, onto)
    ensures AllInStep(t, Begin(t, onto), onto)
  {
    forall k | 0 <= k < |t.segs| ensures InStep(t, Begin(t, onto), k) {
      SessionEnds(t, volumeSize, sessionSize, onto, k);
      SessionBegins(t.configs[k], t.segs[k], onto);
    }
  }

  lemma TargetAligned(c: Config, s: State, seg: CopySegment, from: Store)
    requires HasRoom(from, seg) && seg.offset + seg.size < TWO64 && c.size == seg.size && LengthsKept(c, s)
    requires 0 < c.blockSize && c.n == TotalBlocks(c.size, c.blockSize)
    requires ReadFrom(CopySide(from.format, seg), seg, FileOf(from, seg), c, c.vol)
    ensures Aligned(s.copy, c.blockSize) && |Join(s.copy)| == seg.size
  {
    SessionBlocks(c, seg, from, c.vol);
    JoinSameLength(s.copy, c.vol);
  }

  // A turn changes the bytes of its own session as it changes its blocks.
  lemma TurnOfBytes(c: Config, s: State, a: Action, seg: CopySegment, from: Store, onto: Store)
    requires ValidConfig(c) && Session.Core(c, s) && Enabled(c, s, a) && LengthsKept(c, Next(c, s, a))
    requires HasRoom(from, seg) && HasRoom(onto, seg) && seg.offset + seg.size < TWO64 && c.size == seg.size
    requires ReadFrom(CopySide(from.format, seg), seg, FileOf(from, seg), c, c.vol)
    requires Keeping(onto, seg, Join(s.copy))
    ensures var side := CopySide(onto.format, seg); var file' := Touch(c, s, a, side, seg, FileOf(onto, seg));
      && Keeping(onto.(files := onto.files[onto.path(seg.index) := file']), seg, Join(Next(c, s, a).copy))
      && OnlyWithin(Base(side, seg), seg.size, FileOf(onto, seg), file')
  {
    TargetAligned(c, s, seg, from);
    TargetAligned(c, Next(c, s, a), seg, from);
    CopyIsOpened(onto.format, seg);
    TouchIsStep(c, s, a, CopySide(onto.format, seg), seg, FileOf(onto, seg));
  }

  lemma TurnOfSession(c: Config, s: State, a: Action, seg: CopySegment, from: Store, start: Store, onto: Store)
    requires SessionOf(c, seg, from, start) && seg.offset + seg.size < TWO64 && HasRoom(onto, seg)
    requires SessionKept(c, s, seg, onto) && Enabled(c, s, a) && Harmless(c, s, a)
    ensures var side := CopySide(onto.format, seg); var file' := Touch(c, s, a, side, seg, FileOf(onto, seg));
      && SessionKept(c, Next(c, s, a), seg, onto.(files := onto.files[onto.path(seg.index) := file']))
      && OnlyWithin(Base(side, seg), seg.size, FileOf(onto, seg), file')
  {
    TrustedStep(c, {}, s, a);
    TurnOfBytes(c, s, a, seg, from, onto);
  }

  // And no byte of any other.
  lemma TurnOfAnother(t: Task, m: Machine, turn: Turn, volumeSize: nat, sessionSize: nat, j: nat, file': seq<byte>)
    requires TilesVolume(t.segs, volumeSize, sessionSize) && Distinct(m.onto.format, m.onto.path)
    requires CanTurn(t, m, turn) && j < |t.segs| && j != turn.k && InStep(t, m, j) && t.segs[turn.k].index == turn.k
    requires var seg := t.segs[turn.k];
      OnlyWithin(Base(CopySide(m.onto.format, seg), seg), seg.size, FileOf(m.onto, seg), file')
    ensures SessionKept(t.configs[j], m.states[j], t.segs[j],
                        m.onto.(files := m.onto.files[m.onto.path(turn.k) := file']))
  {
    WriteKeepsOthers(m.onto.format, m.onto.path, m.onto.files, t.segs, volumeSize, sessionSize, turn.k, j, file',
                     Join(m.states[j].copy));
  }

  lemma TurnOfTheRest(t: Task, m: Machine, turn: Turn, volumeSize: nat, sessionSize: nat, file': seq<byte>, s': State)
    requires TilesVolume(t.segs, volumeSize, sessionSize) && Distinct(m.onto.format, m.onto.path)
    requires CanTurn(t, m, turn) && t.segs[turn.k].index == turn.k
    requires forall j :: 0 <= j < |t.segs| ==> InStep(t, m, j)
    requires var seg := t.segs[turn.k];
      OnlyWithin(Base(CopySide(m.onto.format, seg), seg), seg.size, FileOf(m.onto, seg), file')
    ensures var m' := Machine(m.states[turn.k := s'], m.onto.(files := m.onto.files[m.onto.path(turn.k) := file']));
      forall j :: 0 <= j < |t.segs| && j != turn.k ==> InStep(t, m', j)
  {
    var m' := Machine(m.states[turn.k := s'], m.onto.(files := m.onto.files[m.onto.path(turn.k) := file']));
    forall j | 0 <= j < |t.segs| && j != turn.k ensures InStep(t, m', j) {
      assert InStep(t, m, j);
      TurnOfAnother(t, m, turn, volumeSize, sessionSize, j, file');
    }
  }

  lemma StillTheSame(start: Store, st: Store, p: string, file': seq<byte>)
    requires SameFiles(start, st) && p in st.files && |file'| == |st.files[p]|
    ensures SameFiles(start, st.(files := st.files[p := file']))
  {}

  lemma TurnKeeps(t: Task, m: Machine, turn: Turn, volumeSize: nat, sessionSize: nat, start: Store)
    requires TaskOf(t, volumeSize, sessionSize, start) && AllInStep(t, m, start) && CanTurn(t, m, turn)
    requires Distinct(start.format, start.path)
    ensures AllInStep(t, AfterTurn(t, m, turn), start)
  {
    var k := turn.k;
    var c, s, seg := t.configs[k], m.states[k], t.segs[k];
    assert InStep(t, m, k);
    SessionEnds(t, volumeSize, sessionSize, start, k);
    TurnOfSession(c, s, turn.a, seg, t.from, start, m.onto);
    var file' := Touch(c, s, turn.a, CopySide(m.onto.format, seg), seg, FileOf(m.onto, seg));
    StillTheSame(start, m.onto, m.onto.path(k), file');
    TurnOfTheRest(t, m, turn, volumeSize, sessionSize, file', Next(c, s, turn.a));
    assert InStep(t, AfterTurn(t, m, turn), k);
  }

  lemma {:induction false} LeadsKeeps(t: Task, m: Machine, turns: seq<Turn>, m': Machine,
                                      volumeSize: nat, sessionSize: nat, start: Store)
    requires TaskOf(t, volumeSize, sessionSize, start) && Distinct(start.format, start.path)
    requires AllInStep(t, m, start) && Leads(t, m, turns, m')
    ensures AllInStep(t, m', start)
    decreases |turns|
  {
    if |turns| == 1 {
      TurnKeeps(t, m, turns[0], volumeSize, sessionSize, start);
    } else if |turns| > 1 {
      var last := |turns| - 1;
      var mid :| Leads(t, m, turns[..last], mid) && Leads(t, mid, turns[last..], m');
      LeadsKeeps(t, m, turns[..last], mid, volumeSize, sessionSize, start);
      LeadsKeeps(t, mid, turns[last..], m', volumeSize, sessionSize, start);
    }
  }

  ghost predicate AllSucceeded(m: Machine) { forall k :: 0 <= k < |m.states| ==> Succeeded(m.states[k]) }

  lemma SuccessIsVolume(c: Config, s: State)
    requires ValidConfig(c) && TrustedInv(c, {}, s) && Succeeded(s)
    requires SkipsRightly(c) && PreviousTruthful(c) && (c.mode.Diff? ==> CollisionFree(c.digest))
    ensures s.copy == c.vol
  {
    SuccessfulState(c, s);
    TargetIsVolume(c);
  }

  lemma VolumeIsKept(c: Config, seg: CopySegment, from: Store, onto: Store)
    requires HasRoom(from, seg) && seg.offset + seg.size < TWO64 && c.size == seg.size
    requires 0 < c.blockSize && c.n == TotalBlocks(c.size, c.blockSize)
    requires ReadFrom(CopySide(from.format, seg), seg, FileOf(from, seg), c, c.vol) && Keeping(onto, seg, Join(c.vol))
    ensures HasRoom(onto, seg) && BytesOf(onto, seg) == BytesOf(from, seg)
  {
    SessionBlocks(c, seg, from, c.vol);
  }

  lemma SuccessfulCopy(c: Config, s: State, seg: CopySegment, from: Store, start: Store, onto: Store)
    requires SessionOf(c, seg, from, start) && seg.offset + seg.size < TWO64
    requires SessionKept(c, s, seg, onto) && Succeeded(s)
    ensures HasRoom(from, seg) && HasRoom(onto, seg) && BytesOf(onto, seg) == BytesOf(from, seg)
  {
    SuccessIsVolume(c, s);
    VolumeIsKept(c, seg, from, onto);
  }

  // When every session of a task has succeeded, the store holds for every session the bytes it
  // was read from, however the sessions were interrupted and restarted.
  lemma TaskCopies(t: Task, volumeSize: nat, sessionSize: nat, onto: Store, turns: seq<Turn>, m: Machine)
    requires TaskOf(t, volumeSize, sessionSize, onto) && Distinct(onto.format, onto.path)
    requires Leads(t, Begin(t, onto), turns, m) && AllSucceeded(m)
    ensures SameFiles(onto, m.onto)
    ensures forall k :: 0 <= k < |t.segs| ==>
              && HasRoom(t.from, t.segs[k]) && HasRoom(m.onto, t.segs[k])
              && BytesOf(m.onto, t.segs[k]) == BytesOf(t.from, t.segs[k])
  {
    BeginInStep(t, volumeSize, sessionSize, onto);
    LeadsKeeps(t, Begin(t, onto), turns, m, volumeSize, sessionSize, onto);
    forall k | 0 <= k < |t.segs|
      ensures HasRoom(t.from, t.segs[k]) && HasRoom(m.onto, t.segs[k])
      ensures BytesOf(m.onto, t.segs[k]) == BytesOf(t.from, t.segs[k])
    {
      SessionEnds(t, volumeSize, sessionSize, onto, k);
      assert InStep(t, m, k);
      SuccessfulCopy(t.configs[k], m.states[k], t.segs[k], t.from, onto, m.onto);
    }
  }

  // ---------------------------------------------------------------- the whole volume

  ghost predicate InSession(s: CopySegment, p: nat) { s.offset <= p < s.offset + s.size }

  lemma {:induction false} SessionsCover(ss: seq<CopySegment>, sessionSize: nat, n: nat, p: nat) returns (k: nat)
    requires Prefix(ss, sessionSize) && 0 < n <= |ss| && p < ss[n - 1].offset + ss[n - 1].size
    ensures k < n && InSession(ss[k], p)
  {
    PrefixAt(ss, sessionSize, n - 1);
    if p >= ss[n - 1].offset {
      k := n - 1;
    } else {
      k := SessionsCover(ss, sessionSize, n - 1, p);
    }
  }

  lemma SameBytes(a: seq<byte>, b: seq<byte>, from: nat, to: nat, p: nat)
    requires from <= p < to <= |a| == |b| && a[from..to] == b[from..to]
    ensures a[p] == b[p]
  {
    assert a[p] == a[from..to][p - from] && b[p] == b[from..to][p - from];
  }

  // Volumes that agree on every session agree everywhere: the sessions leave no gap.
  lemma SameSessionsSameVolume(a: seq<byte>, b: seq<byte>, ss: seq<CopySegment>, sessionSize: nat)
    requires TilesVolume(ss, |a|, sessionSize) && |a| == |b|
    requires forall k :: 0 <= k < |ss| ==>
               && ss[k].offset + ss[k].size <= |a|
               && a[ss[k].offset..ss[k].offset + ss[k].size] == b[ss[k].offset..ss[k].offset + ss[k].size]
    ensures a == b
  {
    forall p: nat | p < |a| ensures a[p] == b[p] {
      var k := SessionsCover(ss, sessionSize, |ss|, p);
      SameBytes(a, b, ss[k].offset, ss[k].offset + ss[k].size, p);
    }
  }

  // A backup of a volume into a copy, and a restore of a copy onto a target, each with its own block
  // sizes, crashes and restarts, until every session has succeeded.
  ghost predicate BackedUp(t: Task, device: string, volume: seq<byte>, sessionSize: nat, copy: Store,
                           turns: seq<Turn>, m: Machine)
  {
    && t.from == OnDevice(device, volume) && TaskOf(t, |volume|, sessionSize, copy)
    && Leads(t, Begin(t, copy), turns, m) && AllSucceeded(m)
  }

  ghost predicate RestoredFrom(t: Task, copy: Store, device: string, target: seq<byte>, sessionSize: nat,
                           turns: seq<Turn>, m: Machine)
  {
    && t.from == copy && TaskOf(t, |target|, sessionSize, OnDevice(device, target))
    && Leads(t, Begin(t, OnDevice(device, target)), turns, m) && AllSucceeded(m)
  }

  // What went from the volume into the copy and on to the disk is what is on the volume.
  lemma SessionComesBack(device: string, volume: seq<byte>, onDevice: string, copy: Store, disk: Store,
                         seg: CopySegment)
    requires seg.offset + seg.size <= |volume| && disk.format.IMAGE? && disk.path(seg.index) == onDevice
    requires var from := OnDevice(device, volume);
      HasRoom(from, seg) && HasRoom(copy, seg) && BytesOf(copy, seg) == BytesOf(from, seg)
    requires HasRoom(disk, seg) && BytesOf(disk, seg) == BytesOf(copy, seg)
    ensures onDevice in disk.files && seg.offset + seg.size <= |disk.files[onDevice]|
    ensures disk.files[onDevice][seg.offset..seg.offset + seg.size] == volume[seg.offset..seg.offset + seg.size]
  {}

  lemma VolumeComesBack(device: string, volume: seq<byte>, sessionSize: nat, ss: seq<CopySegment>, copy: Store,
                        onDevice: string, disk: Store)
    requires TilesVolume(ss, |volume|, sessionSize) && disk.format.IMAGE? && forall k :: disk.path(k) == onDevice
    requires onDevice in disk.files && |disk.files[onDevice]| == |volume|
    requires forall k :: 0 <= k < |ss| ==>
               && HasRoom(OnDevice(device, volume), ss[k]) && HasRoom(copy, ss[k]) && HasRoom(disk, ss[k])
               && BytesOf(copy, ss[k]) == BytesOf(OnDevice(device, volume), ss[k])
               && BytesOf(disk, ss[k]) == BytesOf(copy, ss[k])
    ensures disk.files[onDevice] == volume
  {
    var result := disk.files[onDevice];
    forall k | 0 <= k < |ss|
      ensures ss[k].offset + ss[k].size <= |volume|
      ensures result[ss[k].offset..ss[k].offset + ss[k].size] == volume[ss[k].offset..ss[k].offset + ss[k].size]
    {
      OffsetsAreMultiples(ss, |volume|, sessionSize, k);
      SessionComesBack(device, volume, onDevice, copy, disk, ss[k]);
    }
    SameSessionsSameVolume(result, volume, ss, sessionSize);
  }

  // In either format, whatever the session and block sizes and however often both were interrupted,
  // a target of the size of the volume ends up as the volume.
  lemma BackupThenRestore(device: string, volume: seq<byte>, sessionSize: nat, copy: Store,
                          backup: Task, turns: seq<Turn>, m: Machine,
                          onDevice: string, target: seq<byte>, restore: Task, turns': seq<Turn>, m': Machine)
    requires Distinct(copy.format, copy.path) && |target| == |volume|
    requires BackedUp(backup, device, volume, sessionSize, copy, turns, m)
    requires RestoredFrom(restore, m.onto, onDevice, target, sessionSize, turns', m')
    ensures onDevice in m'.onto.files && m'.onto.files[onDevice] == volume
  {
    var disk := OnDevice(onDevice, target);
    SplitIsUnique(backup.segs, restore.segs, |volume|, sessionSize);
    TaskCopies(backup, |volume|, sessionSize, copy, turns, m);
    TaskCopies(restore, |target|, sessionSize, disk, turns', m');
    assert onDevice in disk.files;
    VolumeComesBack(device, volume, sessionSize, backup.segs, m.onto, onDevice, m'.onto);
  }

  // The names of the copy files are good enough for that.
  lemma NamedCopyComesBack(dir: string, copyName: string, format: CopyFormat, files: map<string, seq<byte>>,
                           device: string, volume: seq<byte>, sessionSize: nat,
                           backup: Task, turns: seq<Turn>, m: Machine,
                           onDevice: string, target: seq<byte>, restore: Task, turns': seq<Turn>, m': Machine)
    requires |target| == |volume|
    requires var copy := Store(format, (k: nat) => CopyDataFilePath(dir, copyName, format, k), files);
      BackedUp(backup, device, volume, sessionSize, copy, turns, m)
    requires RestoredFrom(restore, m.onto, onDevice, target, sessionSize, turns', m')
    ensures onDevice in m'.onto.files && m'.onto.files[onDevice] == volume
  {
    var copy := Store(format, (k: nat) => CopyDataFilePath(dir, copyName, format, k), files);
    NamingIsDistinct(dir, copyName, format);
    BackupThenRestore(device, volume, sessionSize, copy, backup, turns, m, onDevice, target, restore, turns', m');
  }

  // ---------------------------------------------------------------- which sessions fit the pipeline

  // Any nonempty session in blocks of any size gives a configuration of the pipeline, exactly as
  // long as the allocator's pool holds its blocks.
  lemma GeometryIsValid(c: Config, bytes: seq<byte>, target: seq<byte>)
    requires 0 < |bytes| == |target| == c.size && 0 < c.blockSize && c.n == TotalBlocks(c.size, c.blockSize)
    requires c.vol == Blocks(bytes, c.blockSize) && c.base == Blocks(target, c.blockSize) && |c.prev| == c.n
    requires (if c.hasher then 0 < c.workers else c.workers == 0) && (c.mode.Diff? ==> c.hasher)
    ensures ValidConfig(c) <==> ALLOCATOR_BLOCKS * c.blockSize < TWO32
  {
    BlocksCover(c.size, c.blockSize);
    forall i | 0 <= i < c.n ensures |c.vol[i]| == |c.base[i]| > 0 {
      BlockIs(bytes, c.blockSize, i);
      BlockIs(target, c.blockSize, i);
    }
  }
}
