/** Raw reads and writes at shifted offsets, and where the blocks of a session end up in its copy. */
module RawIO {
  import opened Common
  import opened Geometry
  import opened CopyFiles

  // A negative flag subtracts the shift, a positive one adds it, in 64 bits.
  function Locate(flag: int, shift: nat, offset: nat): nat {
    if flag > 0 then (offset + shift) % TWO64
    else if flag < 0 then (offset - shift) % TWO64
    else offset
  }

  // Which shift the copy readers and writers of a format use.
  function CopyFlag(format: CopyFormat): int { if format.BIN? then -1 else 0 }

  function CopyShift(format: CopyFormat, sessionOffset: nat): nat { if format.BIN? then sessionOffset else 0 }

  // A write at a position, filling a gap before it with zeros.
  function WriteAt(file: seq<byte>, position: nat, data: seq<byte>): seq<byte> {
    var room := if |file| < position then file + seq(position - |file|, _ => 0) else file;
    room[..position] + data + (if position + |data| < |room| then room[position + |data|..] else [])
  }

  class PosixRawDataWriter {
    var file: seq<byte>
    var position: nat
    const flag: int
    const shiftOffset: nat

    constructor (file: seq<byte>, flag: int, shiftOffset: nat)
      ensures this.file == file && position == 0 && this.flag == flag && this.shiftOffset == shiftOffset
    {
      this.file, position, this.flag, this.shiftOffset := file, 0, flag, shiftOffset;
    }

    // A seek beyond 2^63 fails unnoticed and leaves the position alone.
    method Seek(offset: nat)
      modifies this`position
      ensures position == if offset < TWO63 then offset else old(position)
    {
      if offset < TWO63 {
        position := offset;
      }
    }

    // `accepted`: how many bytes the system takes.
    method Write(offset: nat, buffer: seq<byte>, accepted: nat) returns (ok: bool)
      requires offset < TWO64 && accepted <= |buffer|
      modifies this
      ensures ok <==> |buffer| > 0 && accepted == |buffer|
      ensures var at := Locate(flag, shiftOffset, offset);
        file == WriteAt(old(file), if at < TWO63 then at else old(position), buffer[..accepted])
    {
      var at := offset;
      if flag > 0 {
        at := (at + shiftOffset) % TWO64;
      } else if flag < 0 {
        at := (at - shiftOffset) % TWO64;
      }
      Seek(at);
      file := WriteAt(file, position, buffer[..accepted]);
      position := position + accepted;
      ok := !(accepted <= 0 || accepted != |buffer|);
    }
  }

  class PosixRawDataReader {
    const file: seq<byte>
    var position: nat
    const flag: int
    const shiftOffset: nat

    constructor (file: seq<byte>, flag: int, shiftOffset: nat)
      ensures this.file == file && position == 0 && this.flag == flag && this.shiftOffset == shiftOffset
    {
      this.file, position, this.flag, this.shiftOffset := file, 0, flag, shiftOffset;
    }

    // Reading beyond the end is a short read, and a short read is an error.
    method Read(offset: nat, length: nat) returns (ok: bool, buffer: seq<byte>)
      requires offset < TWO64
      modifies this
      ensures var found := Locate(flag, shiftOffset, offset);
        var at := if found < TWO63 then found else old(position);
        && (ok <==> length > 0 && at + length <= |file|)
        && (ok ==> buffer == file[at..at + length])
    {
      var at := offset;
      if flag > 0 {
        at := (at + shiftOffset) % TWO64;
      } else if flag < 0 {
        at := (at - shiftOffset) % TWO64;
      }
      if at < TWO63 {
        position := at;
      }
      var from := Min(position, |file|);
      buffer := file[from..Min(from + length, |file|)];
      position := position + |buffer|;
      ok := !(|buffer| <= 0 || |buffer| != length);
    }
  }

  // ---------------------------------------------------------------- where blocks end up

  // How a reader or a writer was opened: a volume without a shift, a copy as its format wants it.
  datatype Side = Side(flag: int, shift: nat)

  const VOLUME_SIDE := Side(0, 0)

  function CopySide(format: CopyFormat, s: CopySegment): Side { Side(CopyFlag(format), CopyShift(format, s.offset)) }

  predicate Opened(side: Side, s: CopySegment) { side == VOLUME_SIDE || side == CopySide(BIN, s) }

  // Where the bytes of a session begin.
  function Base(side: Side, s: CopySegment): nat { if side.flag == 0 then s.offset else 0 }

  lemma CopyIsOpened(format: CopyFormat, s: CopySegment)
    ensures Opened(CopySide(format, s), s)
    ensures Base(CopySide(format, s), s) == if format.BIN? then 0 else s.offset
  {}

  // Block i is addressed by its volume offset, and the shift takes it to the session's base plus
  // its own offset within the session.
  lemma BlockLocation(side: Side, s: CopySegment, blockSize: nat, i: nat)
    requires Opened(side, s) && s.offset + i * blockSize < TWO64
    ensures Locate(side.flag, side.shift, s.offset + i * blockSize) == Base(side, s) + i * blockSize
  {}

  // A file holds these bytes from `base` on.
  ghost predicate Holds(base: nat, file: seq<byte>, bytes: seq<byte>) {
    base + |bytes| <= |file| && file[base..base + |bytes|] == bytes
  }

  // Nothing outside a stretch has changed.
  ghost predicate OnlyWithin(base: nat, size: nat, file: seq<byte>, file': seq<byte>) {
    && |file'| == |file|
    && forall k :: 0 <= k < |file| && !(base <= k < base + size) ==> file'[k] == file[k]
  }

  lemma WriteInside(file: seq<byte>, base: nat, size: nat, at: nat, data: Block)
    requires base + size <= |file| && at + |data| <= size
    ensures var file' := WriteAt(file, base + at, data);
      && |file'| == |file| && file'[base..base + size] == Splice(file[base..base + size], at, data)
      && OnlyWithin(base, size, file, file')
  {
    var file' := WriteAt(file, base + at, data);
    assert file' == file[..base + at] + data + file[base + at + |data|..];
    var a, b := file'[base..base + size], Splice(file[base..base + size], at, data);
    forall k | 0 <= k < size ensures a[k] == b[k] {
      assert a[k] == file'[base + k];
      if k < at {
        assert file'[base + k] == file[base + k] == b[k];
      } else if k < at + |data| {
        assert file'[base + k] == data[k - at] == b[k];
      } else {
        assert file'[base + k] == file[base + k] == file[base..base + size][k] == b[k];
      }
    }
  }

  lemma StoreInside(base: nat, file: seq<byte>, bytes: seq<byte>, at: nat, data: Block, bytes': seq<byte>)
    requires Holds(base, file, bytes) && at + |data| <= |bytes| && bytes' == Splice(bytes, at, data)
    ensures var file' := WriteAt(file, base + at, data);
      Holds(base, file', bytes') && |bytes'| == |bytes| && OnlyWithin(base, |bytes|, file, file')
  {
    WriteInside(file, base, |bytes|, at, data);
  }

  // Writing block i through the raw writer stores block i of the session and nothing else.
  lemma WriteStoresBlock(base: nat, file: seq<byte>, blocks: seq<Block>, blockSize: nat, i: nat, data: Block)
    requires Aligned(blocks, blockSize) && Holds(base, file, Join(blocks))
    requires i < |blocks| && |data| == |blocks[i]|
    ensures var file' := WriteAt(file, base + i * blockSize, data);
      && Holds(base, file', Join(blocks[i := data])) && |Join(blocks[i := data])| == |Join(blocks)|
      && OnlyWithin(base, |Join(blocks)|, file, file')
  {
    StoreIsSplice(blocks, blockSize, i, data);
    StoreInside(base, file, Join(blocks), i * blockSize, data, Join(blocks[i := data]));
  }

  lemma SliceOfSlice(file: seq<byte>, base: nat, size: nat, at: nat, length: nat)
    requires base + size <= |file| && at + length <= size
    ensures file[base + at..base + at + length] == file[base..base + size][at..at + length]
  {
    var a, b := file[base + at..base + at + length], file[base..base + size][at..at + length];
    forall k | 0 <= k < length ensures a[k] == b[k] {
      assert a[k] == file[base + at + k] && b[k] == file[base..base + size][at + k];
    }
  }

  // Reading block i through the raw reader gives block i of the session, for any block size.
  lemma ReadFetchesBlock(base: nat, file: seq<byte>, bytes: seq<byte>, blockSize: nat, i: nat)
    requires blockSize > 0 && Holds(base, file, bytes) && i < TotalBlocks(|bytes|, blockSize)
    ensures var at := base + i * blockSize; var block := Blocks(bytes, blockSize)[i];
      at + |block| <= |file| && file[at..at + |block|] == block && 0 < |block| <= blockSize
  {
    BlockIs(bytes, blockSize, i);
    var block := Blocks(bytes, blockSize)[i];
    assert block == bytes[i * blockSize..i * blockSize + |block|];
    SliceOfSlice(file, base, |bytes|, i * blockSize, |block|);
  }

  // A whole copy: its files by path. Every session finds its bytes in its own file or stretch.
  ghost predicate CopyHolds(format: CopyFormat, path: nat -> string, files: map<string, seq<byte>>,
                            s: CopySegment, bytes: seq<byte>)
  {
    && path(s.index) in files && |bytes| == s.size
    && Holds(Base(CopySide(format, s), s), files[path(s.index)], bytes)
  }

  lemma SliceKept(file: seq<byte>, file': seq<byte>, changed: nat, size: nat, from: nat, length: nat)
    requires OnlyWithin(changed, size, file, file')
    requires from + length <= |file| && (changed + size <= from || from + length <= changed)
    ensures file'[from..from + length] == file[from..from + length]
  {}

  lemma {:induction false} SessionBefore(ss: seq<CopySegment>, volumeSize: nat, sessionSize: nat, j: nat, k: nat)
    requires TilesVolume(ss, volumeSize, sessionSize) && j < k < |ss|
    ensures ss[j].offset + ss[j].size <= ss[k].offset
  {
    if j < k - 1 { SessionBefore(ss, volumeSize, sessionSize, j, k - 1); }
    PrefixAt(ss, sessionSize, k);
  }

  lemma SessionsApart(ss: seq<CopySegment>, volumeSize: nat, sessionSize: nat, j: nat, k: nat)
    requires TilesVolume(ss, volumeSize, sessionSize) && j < |ss| && k < |ss| && j != k
    ensures ss[j].offset + ss[j].size <= ss[k].offset || ss[k].offset + ss[k].size <= ss[j].offset
  {
    if j < k {
      SessionBefore(ss, volumeSize, sessionSize, j, k);
    } else {
      SessionBefore(ss, volumeSize, sessionSize, k, j);
    }
  }

  // Writing into the stretch of one session changes no byte of any other session.
  lemma WriteKeepsOthers(format: CopyFormat, path: nat -> string, files: map<string, seq<byte>>,
                         ss: seq<CopySegment>, volumeSize: nat, sessionSize: nat, j: nat, k: nat,
                         file': seq<byte>, other: seq<byte>)
    requires TilesVolume(ss, volumeSize, sessionSize) && j < |ss| && k < |ss| && j != k && Distinct(format, path)
    requires CopyHolds(format, path, files, ss[k], other) && path(j) in files
    requires OnlyWithin(Base(CopySide(format, ss[j]), ss[j]), ss[j].size, files[path(j)], file')
    ensures CopyHolds(format, path, files[path(j) := file'], ss[k], other)
  {
    PrefixAt(ss, sessionSize, k);
    if format.IMAGE? {
      SessionsApart(ss, volumeSize, sessionSize, j, k);
      SliceKept(files[path(j)], file', ss[j].offset, ss[j].size, ss[k].offset, ss[k].size);
    }
  }
}
