/** The checkpoint file: what a snapshot writes, what a restart reads back, and what restoring
    does to a session. */
module Snapshots {
  import opened Common
  import opened Bitmaps
  import opened Totals
  import P = Pipeline

  // The file is the processed bitmap followed by the written one.
  function FileOf(processed: seq<Byte>, written: seq<Byte>): seq<Byte> { processed + written }

  // A missing file has size zero; an unreadable one is None as well.
  function Parse(file: Option<seq<Byte>>): Option<(seq<Byte>, seq<Byte>)> {
    if file.None? || |file.value| == 0 || |file.value| % 2 != 0 then None
    else Some((file.value[..|file.value| / 2], file.value[|file.value| / 2..]))
  }

  // Loading what was saved gives both bitmaps back, for every positive length; and every file
  // that loads is what saving its two halves would write.
  lemma RoundTrip(processed: seq<Byte>, written: seq<Byte>, file: seq<Byte>)
    requires |processed| == |written|
    ensures Parse(Some(FileOf(processed, written))) == if |processed| > 0 then Some((processed, written)) else None
    ensures Parse(Some(file)).Some? <==>
            exists p, w :: |p| == |w| > 0 && file == FileOf(p, w) && Parse(Some(file)) == Some((p, w))
  {
    var whole := FileOf(processed, written);
    assert whole[..|processed|] == processed && whole[|processed|..] == written;
    if Parse(Some(file)).Some? {
      var (p, w) := Parse(Some(file)).value;
      assert |p| == |w| > 0 && file == FileOf(p, w);
    }
  }

  method CopyBytes(from: array<Byte>, fromOffset: nat, to: array<Byte>, toOffset: nat, length: nat)
    requires from != to
    requires fromOffset + length <= from.Length && toOffset + length <= to.Length
    modifies to
    ensures to[..] == old(to[..toOffset]) + from[fromOffset..fromOffset + length] + old(to[toOffset + length..])
  {
    for i := 0 to length
      invariant to[..toOffset] == old(to[..toOffset])
      invariant to[toOffset..toOffset + i] == from[fromOffset..fromOffset + i]
      invariant to[toOffset + i..] == old(to[toOffset + i..])
    {
      to[toOffset + i] := from[fromOffset + i];
      assert to[toOffset..toOffset + i + 1] == to[toOffset..toOffset + i] + [from[fromOffset + i]];
    }
    assert to[..] == to[..toOffset] + to[toOffset..toOffset + length] + to[toOffset + length..];
  }

  class CheckpointSnapshot {
    const length: nat
    const processed: array<Byte>
    const written: array<Byte>

    predicate Valid() { processed.Length == written.Length == length && processed != written }

    constructor (length: nat)
      ensures Valid() && this.length == length && fresh(processed) && fresh(written)
      ensures Indices(processed[..]) == {} == Indices(written[..])
    {
      this.length := length;
      processed := new Byte[length](_ => 0);
      written := new Byte[length](_ => 0);
    }

    // The whole content of the file, when the write succeeds.
    method SaveTo() returns (file: seq<Byte>)
      requires Valid()
      ensures |file| == 2 * length && file[..length] == processed[..] && file[length..] == written[..]
      ensures file == FileOf(processed[..], written[..])
    {
      var buffer := new Byte[2 * length](_ => 0);
      var offset := 0;
      CopyBytes(processed, 0, buffer, offset, length);
      offset := offset + length;
      CopyBytes(written, 0, buffer, offset, length);
      file := buffer[..];
    }

    static method LoadFrom(file: Option<seq<Byte>>) returns (r: CheckpointSnapshot?)
      ensures r == null <==> file.None? || |file.value| == 0 || |file.value| % 2 != 0
      ensures r != null ==> 2 * r.length == |file.value| && r.processed[..] == file.value[..r.length]
      ensures r != null ==> r.written[..] == file.value[r.length..]
      ensures (r == null) == Parse(file).None?
      ensures r != null ==> r.Valid() && fresh(r) && fresh(r.processed) && fresh(r.written)
      ensures r != null ==> (r.processed[..], r.written[..]) == Parse(file).value && r.length == |file.value| / 2
    {
      if file.None? || |file.value| == 0 || |file.value| % 2 != 0 {
        return null;
      }
      var bytes := |file.value| / 2;
      var buffer := new Byte[|file.value|](i requires 0 <= i < |file.value| => file.value[i]);
      assert buffer[..] == file.value;
      assert buffer[0..bytes] == file.value[..bytes] && buffer[bytes..bytes + bytes] == file.value[bytes..];
      r := new CheckpointSnapshot(bytes);
      CopyBytes(buffer, 0, r.processed, 0, bytes);
      assert r.processed[..] == file.value[..bytes];
      CopyBytes(buffer, bytes, r.written, 0, bytes);
      assert r.written[..] == file.value[bytes..];
    }
  }

  // ---------------------------------------------------------------- restoring a session

  datatype Context = Context(bits: P.Snap, table: seq<Digest>, cnt: P.Counters)

  // What the start of a session does to its context, given the two files a crash left behind.
  ghost function Restored(c: P.Config, x: Context, file: Option<seq<Byte>>, present: bool,
                          table: Option<seq<Digest>>): Context {
    if !present || !c.checkpoint || (c.hasher && table.None?) then x
    else
      var x' := if c.hasher then x.(table := table.value) else x;
      match Parse(file)
      case None => x'
      case Some((p, w)) =>
        if |p| != P.Capacity(c.n) then x'
        else
          var bits := P.Snap(Indices(p), Indices(w));
          x'.(bits := bits, cnt := P.RestoredCounters(c, bits))
  }

  // The bytes read are those of the processed blocks, the bytes written those of the written ones, both as
  // far as multiples of the block size can tell; the blocks hashed are the processed ones.
  ghost predicate Counted(c: P.Config, cnt: P.Counters, bits: P.Snap)
    requires P.ValidConfig(c)
  {
    && cnt.blocksToHash == cnt.blocksHashed == (if c.hasher then |bits.processed| else 0)
    && ((forall i :: i in bits.processed ==> i < c.n) ==>
          (cnt.bytesRead == BytesOf(c, bits.processed, c.n) <==> CountsExactly(c, bits.processed)))
    && ((forall i :: i in bits.written ==> i < c.n) ==>
          (cnt.bytesWritten == BytesOf(c, bits.written, c.n) <==> CountsExactly(c, bits.written)))
  }

  lemma RestoredCountersCount(c: P.Config, bits: P.Snap)
    requires P.ValidConfig(c)
    ensures Counted(c, P.RestoredCounters(c, bits), bits)
  {
    if forall i :: i in bits.processed ==> i < c.n { RestoredBytesExact(c, bits.processed); }
    if forall i :: i in bits.written ==> i < c.n { RestoredBytesExact(c, bits.written); }
  }

  // Both the preparation of a session and the main loop of the backup restore it; the second time
  // changes nothing, counters included.
  lemma RestoringTwiceIsOnce(c: P.Config, x: Context, file: Option<seq<Byte>>, present: bool,
                             table: Option<seq<Digest>>)
    ensures var y := Restored(c, x, file, present, table); Restored(c, y, file, present, table) == y
  {}

  class SessionContext {
    ghost const config: P.Config
    const blocks: nat
    const sessionSize: nat
    const blockSize: nat
    const hasherEnabled: bool
    const checkpointEnabled: bool
    var processedBitmap: Bitmap
    var writtenBitmap: Bitmap
    var table: seq<Digest>
    var counter: P.Counters

    ghost predicate Valid()
      reads this
    {
      && config.n == blocks && config.size == sessionSize && config.blockSize == blockSize
      && config.hasher == hasherEnabled && config.checkpoint == checkpointEnabled
      && writtenBitmap.table.Length == P.Capacity(blocks)
    }

    ghost function State(): Context
      reads this, processedBitmap.table, writtenBitmap.table
    {
      Context(P.Snap(processedBitmap.Elements(), writtenBitmap.Elements()), table, counter)
    }

    // An empty context, as InitBackupSessionContext makes it.
    constructor (c: P.Config)
      ensures Valid() && config == c && fresh(processedBitmap.table) && fresh(writtenBitmap.table)
      ensures State() == Context(P.Snap({}, {}), seq(c.n, _ => ZERO_DIGEST), P.Counters(0, 0, 0, 0, 0, 0))
    {
      config, blocks, sessionSize, blockSize := c, c.n, c.size, c.blockSize;
      hasherEnabled, checkpointEnabled := c.hasher, c.checkpoint;
      processedBitmap := new Bitmap(c.n);
      writtenBitmap := new Bitmap(c.n);
      table := seq(c.n, _ => ZERO_DIGEST);
      counter := P.Counters(0, 0, 0, 0, 0, 0);
    }

    method RestoreSessionBitmap(file: Option<seq<Byte>>) returns (ok: bool)
      requires Valid()
      modifies this`processedBitmap, this`writtenBitmap
      ensures Valid()
      ensures ok <==> file.Some? && |file.value| == 2 * P.Capacity(blocks)
      ensures ok ==> var half := P.Capacity(blocks);
                State().bits == P.Snap(Indices(file.value[..half]), Indices(file.value[half..]))
      ensures ok <==> Parse(file).Some? && |Parse(file).value.0| == P.Capacity(blocks)
      ensures ok ==> State().bits == P.Snap(Indices(Parse(file).value.0), Indices(Parse(file).value.1))
      ensures ok ==> fresh(processedBitmap.table) && fresh(writtenBitmap.table)
      ensures !ok ==> processedBitmap == old(processedBitmap) && writtenBitmap == old(writtenBitmap)
    {
      var snapshot := CheckpointSnapshot.LoadFrom(file);
      if snapshot == null {
        return false;
      }
      if snapshot.length != writtenBitmap.table.Length {
        return false;
      }
      processedBitmap := new Bitmap.FromBuffer(snapshot.processed);
      writtenBitmap := new Bitmap.FromBuffer(snapshot.written);
      ok := true;
    }

    method RestoreSessionCounter()
      requires Valid()
      modifies this`counter
      ensures counter == P.RestoredCounters(config, State().bits)
      ensures counter.bytesToRead == sessionSize && counter.bytesToWrite == counter.bytesWritten
      ensures P.ValidConfig(config) ==> Counted(config, counter, State().bits)
    {
      var processedCount := processedBitmap.TotalSetCount();
      var writtenCount := writtenBitmap.TotalSetCount();
      var bytesProcessed := if processedCount == blocks then sessionSize else processedCount * blockSize;
      var bytesWritten := if writtenCount == blocks then sessionSize else writtenCount * blockSize;
      var hashed := if hasherEnabled then processedCount else 0;
      counter := P.Counters(sessionSize, bytesProcessed, hashed, hashed, bytesWritten, bytesWritten);
      if P.ValidConfig(config) { RestoredCountersCount(config, State().bits); }
    }

    method RestoreSessionCheckpoint(file: Option<seq<Byte>>, present: bool, tableFile: Option<seq<Digest>>)
      requires Valid()
      modifies this
      ensures Valid()
      ensures State() == Restored(config, old(State()), file, present, tableFile)
      ensures !present || !checkpointEnabled || (hasherEnabled && tableFile.None?) ==> State() == old(State())
      ensures !present || !hasherEnabled ==> table == old(table)
    {
      if !present || !checkpointEnabled {
        return;
      }
      if hasherEnabled {
        if tableFile.None? {
          return;
        }
        table := tableFile.value;
      }
      var restored := RestoreSessionBitmap(file);
      if !restored {
        return;
      }
      RestoreSessionCounter();
    }
  }

  // The pipeline starts from exactly what restoring the saved snapshot gives, and from an empty
  // context if there is none.
  lemma BootIsRestore(c: P.Config, target: seq<Block>, f: P.Files, readTable: bool, readBits: bool,
                      processed: seq<Byte>, written: seq<Byte>)
    requires |processed| == |written| == P.Capacity(c.n)
    requires f.ckptFile.Some? ==> f.ckptFile == Some(P.Snap(Indices(processed), Indices(written)))
    ensures var s := P.Boot(c, target, f, readTable, readBits);
      var initial := Context(P.Snap({}, {}), seq(c.n, _ => ZERO_DIGEST), P.Counters(c.size, 0, 0, 0, 0, 0));
      var present := f.ckptFile.Some?;
      var file := if present && readBits then Some(FileOf(processed, written)) else None;
      && Context(s.bits, s.table, s.cnt)
         == Restored(c, initial, file, present, if readTable then f.tableFile else None)
      && (!present ==> Context(s.bits, s.table, s.cnt) == initial)
  {
    RoundTrip(processed, written, []);
  }
}
