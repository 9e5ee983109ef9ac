/** The zero-copy restore of one session: sendfile in a loop, with transfers of any size. */
module ZeroCopy {
  import opened Common
  import opened Geometry
  import opened RawIO

  // How the loop stands: it has ended, a call has failed, or it goes on.
  datatype Outcome = Done | Failed | Running

  // What the copy has from `from` on, `length` bytes at most.
  function Slice(copy: seq<byte>, from: nat, length: nat): seq<byte> {
    copy[Min(from, |copy|)..Min(from + length, |copy|)]
  }

  // Those bytes of the copy, and no fewer, have been written at `position`.
  ghost predicate Sent(copy: seq<byte>, offset: nat, count: nat, was: seq<byte>, position: nat, volume: seq<byte>) {
    |Slice(copy, offset, count)| == count && volume == WriteAt(was, position, Slice(copy, offset, count))
  }

  // The first `moved` bytes of the session have gone to the front of the device.
  ghost predicate Transferred(was: seq<byte>, volume: seq<byte>, copy: seq<byte>, from: nat, moved: nat) {
    volume == WriteAt(was, 0, Slice(copy, from, moved)) && (moved > 0 ==> from + moved <= |copy|)
  }

  lemma WriteNothing(volume: seq<byte>, copy: seq<byte>, from: nat)
    ensures Transferred(volume, volume, copy, from, 0)
  {
    assert Slice(copy, from, 0) == [];
  }

  lemma SliceOn(copy: seq<byte>, from: nat, a: nat, b: nat)
    requires a > 0 ==> from + a <= |copy|
    requires b == |Slice(copy, from + a, b)|
    ensures Slice(copy, from, a + b) == Slice(copy, from, a) + Slice(copy, from + a, b)
    ensures |Slice(copy, from, a)| == a
  {}

  // Two writes in a row are one.
  lemma WriteOn(file: seq<byte>, a: seq<byte>, b: seq<byte>)
    requires |a| + |b| <= |file|
    ensures WriteAt(WriteAt(file, 0, a), |a|, b) == WriteAt(file, 0, a + b)
  {}

  lemma TransferOn(was: seq<byte>, copy: seq<byte>, from: nat, a: nat, b: nat, before: seq<byte>, after: seq<byte>)
    requires a + b <= |was| && Transferred(was, before, copy, from, a) && Sent(copy, from + a, b, before, a, after)
    ensures Transferred(was, after, copy, from, a + b)
  {
    SliceOn(copy, from, a, b);
    WriteOn(was, Slice(copy, from, a), Slice(copy, from + a, b));
  }

  // How much one call moves: no more than the system cares to, than is asked for, and than the copy has.
  function MovedByOne(copy: seq<byte>, offset: nat, length: nat, asked: nat): nat {
    Min(Min(asked, length), if offset < |copy| then |copy| - offset else 0)
  }

  // And k calls, of which each asks for a block or, at the end, for what is left of the session.
  function MovedBy(copy: seq<byte>, from: nat, size: nat, blockSize: nat, transfer: nat -> int, k: nat): (r: nat)
    ensures r <= size
  {
    if k == 0 then 0
    else
      var before := MovedBy(copy, from, size, blockSize, transfer, k - 1);
      var asked := if transfer(k - 1) < 0 then 0 else transfer(k - 1);
      before + MovedByOne(copy, from + before, Min(blockSize, size - before), asked)
  }

  lemma MovedOn(copy: seq<byte>, from: nat, size: nat, blockSize: nat, transfer: nat -> int, k: nat)
    ensures var before := MovedBy(copy, from, size, blockSize, transfer, k);
      var asked := if transfer(k) < 0 then 0 else transfer(k);
      MovedBy(copy, from, size, blockSize, transfer, k + 1) ==
      before + MovedByOne(copy, from + before, Min(blockSize, size - before), asked)
  {}

  // Every call moves something.
  ghost predicate Moving(copy: seq<byte>, from: nat, size: nat, blockSize: nat, transfer: nat -> int) {
    (forall k :: transfer(k) > 0) && blockSize > 0 && from + size <= |copy|
  }

  lemma {:induction false} MovesOn(copy: seq<byte>, from: nat, size: nat, blockSize: nat, transfer: nat -> int, k: nat)
    ensures Moving(copy, from, size, blockSize, transfer) ==>
              MovedBy(copy, from, size, blockSize, transfer, k) >= Min(k, size)
  {
    if k > 0 && Moving(copy, from, size, blockSize, transfer) { MovesOn(copy, from, size, blockSize, transfer, k - 1); }
  }

  // None of the first calls fails.
  ghost predicate NoError(transfer: nat -> int, calls: nat) { forall k: nat :: k < calls ==> transfer(k) >= 0 }

  class VolumeZeroCopyRestoreTask {
    const copy: seq<byte>          // the copy file
    var volume: seq<byte>          // the target device
    var outPosition: nat           // where its descriptor stands: it has just been opened
    var bytesRead: nat
    var bytesWritten: nat

    constructor (copy: seq<byte>, volume: seq<byte>)
      ensures this.copy == copy && this.volume == volume && outPosition == 0 && bytesRead == bytesWritten == 0
    {
      this.copy, this.volume, outPosition, bytesRead, bytesWritten := copy, volume, 0, 0, 0;
    }

    // sendfile reads the copy at `offset` and writes the device at its own position; of what is
    // asked for it moves at most `length` bytes and no more than the copy has.
    method SendFile(offset: nat, length: nat, asked: int) returns (ret: int, newOffset: nat)
      modifies this`volume, this`outPosition
      ensures asked < 0 ==> ret < 0 && newOffset == offset && volume == old(volume) && outPosition == old(outPosition)
      ensures asked >= 0 ==> ret == MovedByOne(copy, offset, length, asked)
      ensures asked >= 0 ==> newOffset == offset + ret && outPosition == old(outPosition) + ret
      ensures asked >= 0 ==> Sent(copy, offset, ret, old(volume), old(outPosition), volume)
    {
      if asked < 0 {
        return -1, offset;
      }
      var bytes := Slice(copy, offset, Min(asked, length));
      assert bytes == Slice(copy, offset, |bytes|);
      volume := WriteAt(volume, outPosition, bytes);
      ret, outPosition, newOffset := |bytes|, outPosition + |bytes|, offset + |bytes|;
    }

    // How much the next call asks for: no more than is left of the session. The sum is one of 64 bits.
    method CutLength(offset: nat, len: nat, sessionMax: nat) returns (length: nat)
      requires offset <= sessionMax && offset + len < TWO64
      ensures length == Min(len, sessionMax - offset)
    {
      length := len;
      if (offset + len) % TWO64 > sessionMax {
        length := sessionMax - offset;
      }
    }

    // How the session stands after so many calls.
    ghost predicate Stands(was: seq<byte>, from: nat, size: nat, blockSize: nat, transfer: nat -> int, calls: nat)
      reads this
    {
      && outPosition == bytesRead == bytesWritten <= size <= |was|
      && Transferred(was, volume, copy, from, outPosition)
      && outPosition == MovedBy(copy, from, size, blockSize, transfer, calls)
    }

    // One call of sendfile, and the statistics after it.
    method TransferMore(ghost was: seq<byte>, ghost from: nat, ghost size: nat, ghost blockSize: nat,
                        transfer: nat -> int, calls: nat, offset: nat, length: nat)
      returns (ret: int, newOffset: nat)
      requires Stands(was, from, size, blockSize, transfer, calls)
      requires offset == from + outPosition && length == Min(blockSize, size - outPosition)
      modifies this
      ensures Stands(was, from, size, blockSize, transfer, calls + 1) && newOffset == from + outPosition
      ensures outPosition >= old(outPosition) && (ret < 0 ==> outPosition == old(outPosition))
      ensures ret < 0 <==> transfer(calls) < 0
    {
      ghost var done, before := outPosition, volume;
      ret, newOffset := SendFile(offset, length, transfer(calls));
      MovedOn(copy, from, size, blockSize, transfer, calls);
      if ret >= 0 {
        TransferOn(was, copy, from, done, ret, before, volume);
        bytesRead, bytesWritten := bytesRead + ret, bytesWritten + ret;
      }
    }

    // The first `limit` turns of the loop. `transfer(k)`: what the system moves in the k-th call if
    // it can, possibly nothing; negative for an error, which is the last call of all.
    method PerformZeroCopyRestore(sessionOffset: nat, sessionSize: nat, blockSize: nat, transfer: nat -> int,
                                  limit: nat)
      returns (outcome: Outcome, calls: nat)
      requires outPosition == 0 && sessionSize <= |volume|
      requires sessionOffset + sessionSize + blockSize < TWO64
      modifies this
      ensures outcome.Failed? ==> calls > 0
      ensures outPosition == bytesRead == bytesWritten <= sessionSize
      ensures outPosition == MovedBy(copy, sessionOffset, sessionSize, blockSize, transfer, calls)
      ensures Transferred(old(volume), volume, copy, sessionOffset, outPosition)
      ensures calls <= limit && NoError(transfer, if outcome.Failed? then calls - 1 else calls)
      ensures outcome.Done? <==> outPosition == sessionSize
      ensures outcome.Failed? ==> transfer(calls - 1) < 0
      ensures outcome.Running? ==> calls == limit
      ensures Moving(copy, sessionOffset, sessionSize, blockSize, transfer) && sessionSize <= limit ==> outcome.Done?
    {
      hide Transferred, MovedByOne, WriteAt, Slice;
      bytesRead, bytesWritten := 0, 0;
      var offset, len, sessionMax := sessionOffset, blockSize, sessionOffset + sessionSize;
      calls := 0;
      WriteNothing(volume, copy, sessionOffset);
      while offset < sessionMax
        invariant calls <= limit && NoError(transfer, calls)
        invariant Stands(old(volume), sessionOffset, sessionSize, blockSize, transfer, calls)
        invariant sessionOffset <= offset == sessionOffset + outPosition <= sessionMax && 0 <= len <= blockSize
        invariant len == blockSize || len >= sessionMax - offset
        decreases limit - calls
      {
        hide Stands, MovedBy;
        if calls == limit {
          MovesOn(copy, sessionOffset, sessionSize, blockSize, transfer, calls);
          return Running, calls;
        }
        len := CutLength(offset, len, sessionMax);
        var ret;
        ret, offset := TransferMore(old(volume), sessionOffset, sessionSize, blockSize, transfer, calls, offset, len);
        calls := calls + 1;
        if ret < 0 {
          return Failed, calls;
        }
      }
      outcome := Done;
    }
  }

  // The device is opened anew for every session, so what the loop leaves is the session in its
  // place, for every device and copy, exactly when the session starts at 0 or is empty.
  lemma RightOnlyAtZero(offset: nat, size: nat)
    ensures (forall volume: seq<byte>, bytes: seq<byte> :: offset + size <= |volume| && |bytes| == size ==>
               WriteAt(volume, 0, bytes) == WriteAt(volume, offset, bytes)) <==> offset == 0 || size == 0
  {
    if size == 0 {
      forall volume: seq<byte>, bytes: seq<byte> | offset + size <= |volume| && |bytes| == size
        ensures WriteAt(volume, 0, bytes) == WriteAt(volume, offset, bytes)
      {
        assert WriteAt(volume, 0, bytes) == volume == WriteAt(volume, offset, bytes);
      }
    } else if offset > 0 {
      var volume, bytes := seq(offset + size, _ => 0 as byte), seq(size, _ => 1 as byte);
      assert WriteAt(volume, 0, bytes)[0] == 1 && WriteAt(volume, offset, bytes)[0] == 0;
    }
  }
}
