/** The files of a copy: their names, and what a full backup creates before it starts. */
module CopyFiles {
  import opened Common
  import opened Geometry

  datatype CopyFormat = BIN | IMAGE

  // ---------------------------------------------------------------- names

  function Digit(d: nat): char
    requires d < 10
  {
    '0' + d as char
  }

  function ToString(n: nat): string {
    if n < 10 then [Digit(n)] else ToString(n / 10) + [Digit(n % 10)]
  }

  lemma LongerFromTen(n: nat)
    ensures |ToString(n)| >= 1 && (|ToString(n)| > 1 <==> n >= 10)
  {}

  lemma {:induction false} ToStringInjective(a: nat, b: nat)
    requires ToString(a) == ToString(b)
    ensures a == b
  {
    var s, t := ToString(a), ToString(b);
    assert s[|s| - 1] == Digit(a % 10) && t[|t| - 1] == Digit(b % 10);
    LongerFromTen(a);
    LongerFromTen(b);
    if a >= 10 {
      assert s[..|s| - 1] == ToString(a / 10) && t[..|t| - 1] == ToString(b / 10);
      ToStringInjective(a / 10, b / 10);
    }
  }

  lemma SplitsNoLater(kind: char -> bool, a: string, x: string, b: string, y: string)
    requires |a| > |b| && !kind(a[|a| - 1]) && forall k :: 0 <= k < |y| ==> kind(y[k])
    ensures a + x != b + y
  {
    var s, t := a + x, b + y;
    assert s[|a| - 1] == a[|a| - 1];
    assert |a| <= |t| ==> t[|a| - 1] == y[|a| - 1 - |b|];
  }

  // Where a run of characters of one kind ends a text, the text splits in one way only.
  lemma SplitsOnce(kind: char -> bool, a: string, x: string, b: string, y: string)
    requires a != [] && !kind(a[|a| - 1]) && forall k :: 0 <= k < |x| ==> kind(x[k])
    requires b != [] && !kind(b[|b| - 1]) && forall k :: 0 <= k < |y| ==> kind(y[k])
    ensures a + x == b + y <==> a == b && x == y
  {
    var s, t := a + x, b + y;
    if |a| > |b| {
      SplitsNoLater(kind, a, x, b, y);
    } else if |a| < |b| {
      SplitsNoLater(kind, b, y, a, x);
    } else if s == t {
      assert a == s[..|a|] == t[..|b|] == b && x == s[|a|..] == t[|b|..] == y;
    }
  }

  predicate IsDigit(ch: char) { '0' <= ch <= '9' }

  lemma {:induction false} ToStringDigits(n: nat)
    ensures ToString(n) != [] && forall k :: 0 <= k < |ToString(n)| ==> IsDigit(ToString(n)[k])
  {
    if n >= 10 { ToStringDigits(n / 10); }
  }

  // Texts that end in numbers, as they stand behind something that does not end in a digit.
  lemma NumbersApart(a: string, j: nat, b: string, k: nat)
    requires a != [] && b != [] && !IsDigit(a[|a| - 1]) && !IsDigit(b[|b| - 1])
    ensures a + ToString(j) == b + ToString(k) <==> a == b && j == k
  {
    ToStringDigits(j);
    ToStringDigits(k);
    SplitsOnce(IsDigit, a, ToString(j), b, ToString(k));
    if ToString(j) == ToString(k) { ToStringInjective(j, k); }
  }

  lemma SuffixOff(a: string, b: string, x: string)
    ensures a + x == b + x <==> a == b
  {
    if a + x == b + x { assert a == (a + x)[..|a|] && b == (b + x)[..|a|]; }
  }

  const COPY_DATA_BIN_FILENAME_EXTENSION := ".copydata.bin"
  const COPY_DATA_BIN_PARTED_FILENAME_EXTENSION := ".copydata.bin.part"
  const COPY_DATA_IMAGE_FILENAME_EXTENSION := ".copydata.img"
  const SHA256_CHECKSUM_BINARY_FILENAME_EXTENSION := ".sha256.meta.bin"
  const WRITER_BITMAP_FILENAME_EXTENSION := ".checkpoint.bin"

  function CopyDataFileName(copyName: string, format: CopyFormat, sessionIndex: nat): string {
    if format.BIN? && sessionIndex == 0 then copyName + COPY_DATA_BIN_FILENAME_EXTENSION
    else if format.IMAGE? then copyName + COPY_DATA_IMAGE_FILENAME_EXTENSION
    else copyName + COPY_DATA_BIN_PARTED_FILENAME_EXTENSION + ToString(sessionIndex)
  }

  // The kinds of copy files are told apart by the last character of their names.
  lemma LastOfDataName(copyName: string, format: CopyFormat, sessionIndex: nat)
    ensures var name := CopyDataFileName(copyName, format, sessionIndex);
      && name != []
      && if format.IMAGE? then name[|name| - 1] == 'g'
         else if sessionIndex == 0 then name[|name| - 1] == 'n'
         else IsDigit(name[|name| - 1])
  {
    ToStringDigits(sessionIndex);
  }

  // Two copy files have the same name exactly if they belong to the same copy, in the same format, and
  // to the same session or to one image.
  lemma CopyDataNamesApart(a: string, f: CopyFormat, j: nat, b: string, g: CopyFormat, k: nat)
    ensures CopyDataFileName(a, f, j) == CopyDataFileName(b, g, k) <==> a == b && f == g && (j == k || f.IMAGE?)
  {
    LastOfDataName(a, f, j);
    LastOfDataName(b, g, k);
    SuffixOff(a, b, COPY_DATA_BIN_FILENAME_EXTENSION);
    SuffixOff(a, b, COPY_DATA_IMAGE_FILENAME_EXTENSION);
    var part := COPY_DATA_BIN_PARTED_FILENAME_EXTENSION;
    SuffixOff(a, b, part);
    NumbersApart(a + part, j, b + part, k);
  }

  function PathJoin(dir: string, name: string): string { dir + "/" + name }

  predicate NoSeparator(name: string) { '/' !in name }

  lemma PathsApart(d: string, x: string, e: string, y: string)
    ensures d == e || (NoSeparator(x) && NoSeparator(y)) ==> (PathJoin(d, x) == PathJoin(e, y) <==> d == e && x == y)
  {
    if d == e {
      var head := d + "/";
      assert PathJoin(d, x)[|head|..] == x && PathJoin(e, y)[|head|..] == y;
    } else if NoSeparator(x) && NoSeparator(y) {
      SplitsOnce(ch => ch != '/', d + "/", x, e + "/", y);
      SuffixOff(d, e, "/");
    }
  }

  function CopyDataFilePath(dir: string, copyName: string, format: CopyFormat, sessionIndex: nat): string {
    PathJoin(dir, CopyDataFileName(copyName, format, sessionIndex))
  }

  lemma NoSeparatorInData(copyName: string, format: CopyFormat, sessionIndex: nat)
    requires NoSeparator(copyName)
    ensures NoSeparator(CopyDataFileName(copyName, format, sessionIndex))
  {
    ToStringDigits(sessionIndex);
  }

  // Copies in different directories, under different names or in different formats share no file; in one
  // directory that holds for every name.
  lemma CopiesApart(d: string, a: string, f: CopyFormat, j: nat, e: string, b: string, g: CopyFormat, k: nat)
    requires d == e || (NoSeparator(a) && NoSeparator(b))
    ensures CopyDataFilePath(d, a, f, j) == CopyDataFilePath(e, b, g, k) <==>
            d == e && a == b && f == g && (j == k || f.IMAGE?)
  {
    if d != e {
      NoSeparatorInData(a, f, j);
      NoSeparatorInData(b, g, k);
    }
    PathsApart(d, CopyDataFileName(a, f, j), e, CopyDataFileName(b, g, k));
    CopyDataNamesApart(a, f, j, b, g, k);
  }

  // Two sessions share a copy file exactly when the whole copy is one image.
  lemma CopyFilesDistinct(dir: string, copyName: string, format: CopyFormat, j: nat, k: nat)
    ensures CopyDataFilePath(dir, copyName, format, j) == CopyDataFilePath(dir, copyName, format, k) <==>
            j == k || format.IMAGE?
  {
    CopiesApart(dir, copyName, format, j, dir, copyName, format, k);
  }

  // What the naming of copy files has to guarantee.
  ghost predicate Distinct(format: CopyFormat, path: nat -> string) {
    forall j: nat, k: nat :: path(j) == path(k) <==> j == k || format.IMAGE?
  }

  lemma NamingIsDistinct(dir: string, copyName: string, format: CopyFormat)
    ensures Distinct(format, (k: nat) => CopyDataFilePath(dir, copyName, format, k))
  {
    forall j: nat, k: nat
      ensures CopyDataFilePath(dir, copyName, format, j) == CopyDataFilePath(dir, copyName, format, k) <==>
              j == k || format.IMAGE?
    {
      CopyFilesDistinct(dir, copyName, format, j, k);
    }
  }

  // The files of a session besides its data.
  function SessionFileName(copyName: string, sessionIndex: nat, extension: string): string {
    copyName + "." + ToString(sessionIndex) + extension
  }

  predicate MetaExtension(extension: string) {
    extension == SHA256_CHECKSUM_BINARY_FILENAME_EXTENSION || extension == WRITER_BITMAP_FILENAME_EXTENSION
  }

  function ChecksumBinPath(dir: string, copyName: string, sessionIndex: nat): string {
    PathJoin(dir, SessionFileName(copyName, sessionIndex, SHA256_CHECKSUM_BINARY_FILENAME_EXTENSION))
  }

  function WriterBitmapFilePath(dir: string, copyName: string, sessionIndex: nat): string {
    PathJoin(dir, SessionFileName(copyName, sessionIndex, WRITER_BITMAP_FILENAME_EXTENSION))
  }

  // A table ends in "a.bin", a checkpoint in "t.bin".
  lemma EndOfSessionName(copyName: string, sessionIndex: nat, extension: string)
    requires MetaExtension(extension)
    ensures var name := SessionFileName(copyName, sessionIndex, extension);
      |name| > 9 && name[|name| - 1] == 'n'
      && name[|name| - 5] == (if extension == WRITER_BITMAP_FILENAME_EXTENSION then 't' else 'a')
      && name[|name| - 7] == (if extension == WRITER_BITMAP_FILENAME_EXTENSION then 'i' else 'e')
  {}

  // Two such files have the same name exactly if they are the same file of the same session of the same copy.
  lemma SessionFilesDistinct(a: string, j: nat, x: string, b: string, k: nat, y: string)
    requires MetaExtension(x) && MetaExtension(y)
    ensures SessionFileName(a, j, x) == SessionFileName(b, k, y) <==> a == b && j == k && x == y
  {
    EndOfSessionName(a, j, x);
    EndOfSessionName(b, k, y);
    if x == y {
      SuffixOff(a + "." + ToString(j), b + "." + ToString(k), x);
      NumbersApart(a + ".", j, b + ".", k);
      SuffixOff(a, b, ".");
    }
  }

  // And none of them has the name of a copy file.
  lemma DataApartFromMeta(a: string, f: CopyFormat, j: nat, b: string, k: nat, y: string)
    requires MetaExtension(y)
    ensures CopyDataFileName(a, f, j) != SessionFileName(b, k, y)
  {
    LastOfDataName(a, f, j);
    EndOfSessionName(b, k, y);
    if f.BIN? && j == 0 {
      var name := CopyDataFileName(a, f, j);
      assert name[|name| - 5] == 'a' && name[|name| - 7] == 'a';
    }
  }

  // So the table and the checkpoint of a session are never one file, nor those of two copies, even if
  // all directories are the same.
  lemma MetaFilesApart(d: string, a: string, j: nat, e: string, b: string, k: nat)
    requires d == e || (NoSeparator(a) && NoSeparator(b))
    ensures ChecksumBinPath(d, a, j) != WriterBitmapFilePath(e, b, k)
    ensures ChecksumBinPath(d, a, j) == ChecksumBinPath(e, b, k) <==> d == e && a == b && j == k
    ensures WriterBitmapFilePath(d, a, j) == WriterBitmapFilePath(e, b, k) <==> d == e && a == b && j == k
  {
    var x, y := SHA256_CHECKSUM_BINARY_FILENAME_EXTENSION, WRITER_BITMAP_FILENAME_EXTENSION;
    ToStringDigits(j);
    ToStringDigits(k);
    PathsApart(d, SessionFileName(a, j, x), e, SessionFileName(b, k, y));
    PathsApart(d, SessionFileName(a, j, x), e, SessionFileName(b, k, x));
    PathsApart(d, SessionFileName(a, j, y), e, SessionFileName(b, k, y));
    SessionFilesDistinct(a, j, x, b, k, y);
    SessionFilesDistinct(a, j, x, b, k, x);
    SessionFilesDistinct(a, j, y, b, k, y);
  }

  // ---------------------------------------------------------------- creating the copy

  class BackupTaskResourceManager {
    const format: CopyFormat
    const fullBackup: bool
    const dir: string
    const copyName: string
    const volumeSize: nat
    const maxSessionSize: nat
    var files: map<string, nat>    // the directory: path to size

    constructor (format: CopyFormat, fullBackup: bool, dir: string, copyName: string,
                 volumeSize: nat, maxSessionSize: nat, files: map<string, nat>)
      ensures this.format == format && this.fullBackup == fullBackup && this.dir == dir && this.copyName == copyName
      ensures this.volumeSize == volumeSize && this.maxSessionSize == maxSessionSize && this.files == files
    {
      this.format, this.fullBackup, this.dir, this.copyName := format, fullBackup, dir, copyName;
      this.volumeSize, this.maxSessionSize, this.files := volumeSize, maxSessionSize, files;
    }

    predicate Valid() { Splits(volumeSize, maxSessionSize) }

    function Path(k: nat): string { CopyDataFilePath(dir, copyName, format, k) }

    ghost predicate SameSizes(fragments: seq<(nat, nat)>, sessions: seq<CopySegment>) {
      && |fragments| == |sessions|
      && forall k :: 0 <= k < |fragments| ==> fragments[k] == (0, sessions[k].size)
    }

    // For every file the session index its name is made of, and its size: the same sizes as the
    // sessions of the backup, but always the name of the first one, as the index is never advanced.
    method SplitFragmentBinaryBackupCopy(ghost sessions: seq<CopySegment>) returns (fragments: seq<(nat, nat)>)
      requires Valid() && TilesVolume(sessions, volumeSize, maxSessionSize)
      ensures SameSizes(fragments, sessions)
    {
      fragments := [];
      ghost var found: seq<CopySegment> := [];
      var sessionIndex, sessionOffset := 0, 0;
      while sessionOffset < volumeSize
        invariant SplitSoFar(found, sessionOffset, volumeSize, maxSessionSize)
        invariant sessionIndex == 0 && SameSizes(fragments, found)
      {
        SplitStep(found, sessionOffset, volumeSize, maxSessionSize);
        var sessionSize := maxSessionSize;
        if (sessionOffset + sessionSize) % TWO64 >= volumeSize {
          sessionSize := volumeSize - sessionOffset;
        }
        found := found + [CopySegment(|found|, sessionOffset, sessionSize)];
        sessionOffset := (sessionOffset + sessionSize) % TWO64;
        fragments := fragments + [(sessionIndex, sessionSize)];
      }
      SplitDone(found, volumeSize, maxSessionSize);
      SplitIsUnique(found, sessions, volumeSize, maxSessionSize);
    }

    // Opening for creation is exclusive: an existing file is an error.
    method TruncateCreateFile(path: string, size: nat) returns (ok: bool)
      modifies this
      ensures ok <==> path !in old(files)
      ensures files == if ok then old(files)[path := size] else old(files)
    {
      ok := path !in files;
      if ok {
        files := files[path := size];
      }
    }

    method CreateFragmentBinaryBackupCopy(ghost sessions: seq<CopySegment>) returns (ok: bool)
      requires Valid() && TilesVolume(sessions, volumeSize, maxSessionSize)
      modifies this
      ensures var path := CopyDataFilePath(dir, copyName, BIN, 0);
        && (ok <==> sessions == [] || (|sessions| == 1 && path !in old(files)))
        && (files == if sessions == [] || path in old(files) then old(files) else old(files)[path := sessions[0].size])
    {
      var fragments := SplitFragmentBinaryBackupCopy(sessions);
      var k := 0;
      while k < |fragments|
        invariant 0 <= k <= |fragments| && (k > 0 ==> CopyDataFilePath(dir, copyName, BIN, 0) !in old(files))
        invariant k <= 1
        invariant files == if k == 0 then old(files)
                           else old(files)[CopyDataFilePath(dir, copyName, BIN, 0) := fragments[0].1]
      {
        ok := TruncateCreateFile(CopyDataFilePath(dir, copyName, BIN, fragments[k].0), fragments[k].1);
        if !ok {
          return;
        }
        k := k + 1;
      }
      ok := true;
    }

    method ResourceExists(ghost sessions: seq<CopySegment>) returns (exist: bool)
      requires Valid() && TilesVolume(sessions, volumeSize, maxSessionSize)
      ensures exist <==> Path(0) in files || (format.BIN? && sessions == [])
    {
      if format.IMAGE? {
        return CopyDataFilePath(dir, copyName, format, 0) in files;
      }
      var fragments := SplitFragmentBinaryBackupCopy(sessions);
      for k := 0 to |fragments|
        invariant k > 0 ==> Path(0) in files
      {
        if CopyDataFilePath(dir, copyName, BIN, fragments[k].0) !in files {
          return false;
        }
      }
      exist := true;
    }

    // A full backup in binary format prepares its copy only if the first file is there already or
    // the volume fits into one session; all it ever creates is the first file.
    method PrepareCopyResource(ghost sessions: seq<CopySegment>) returns (ok: bool)
      requires Valid() && TilesVolume(sessions, volumeSize, maxSessionSize)
      modifies this
      ensures ok <==> !fullBackup || format.IMAGE? || Path(0) in old(files) || |sessions| <= 1
      ensures files ==
              if !fullBackup || Path(0) in old(files) || (format.BIN? && sessions == []) then old(files)
              else old(files)[Path(0) := if format.IMAGE? then volumeSize else sessions[0].size]
    {
      var exist := ResourceExists(sessions);
      if fullBackup && !exist {
        if format.IMAGE? {
          ok := TruncateCreateFile(CopyDataFilePath(dir, copyName, format, 0), volumeSize);
        } else {
          ok := CreateFragmentBinaryBackupCopy(sessions);
        }
        if !ok {
          return;
        }
      }
      ok := true;
    }
  }

  // Starting from a directory without the copy, preparing a full backup leaves a file for every
  // session exactly when they share one file or there is at most one.
  lemma PreparedForEverySession(dir: string, copyName: string, format: CopyFormat, before: map<string, nat>,
                                after: map<string, nat>, sessions: seq<CopySegment>, size: nat)
    requires forall k: nat :: k < |sessions| ==> CopyDataFilePath(dir, copyName, format, k) !in before
    requires after == if sessions == [] then before else before[CopyDataFilePath(dir, copyName, format, 0) := size]
    ensures (forall k: nat :: k < |sessions| ==> CopyDataFilePath(dir, copyName, format, k) in after) <==>
            format.IMAGE? || |sessions| <= 1
  {
    if format.IMAGE? {
      forall k: nat | k < |sessions| ensures CopyDataFilePath(dir, copyName, format, k) in after {
        CopyFilesDistinct(dir, copyName, format, 0, k);
      }
    } else if |sessions| > 1 {
      CopyFilesDistinct(dir, copyName, format, 0, 1);
      assert CopyDataFilePath(dir, copyName, format, 1) !in after;
    }
  }
}
