/** Forever-incremental backups: a full backup followed by any number of DIFF backups onto the same
    copy, each comparing with the checksum table the one before it saved. */
module IncrementalChain {
  import opened Common
  import opened Pipeline
  import opened Durability
  import opened Convergence
  import opened Restarts

  // How many bytes of the previous table are read: whole blocks only, counted in 32 bits.
  function PreviousBytes(size: nat, blockSize: nat): nat
    requires blockSize > 0
  {
    (size / blockSize % TWO32) * CHECKSUM_SIZE % TWO32
  }

  // The previous table of n blocks as a session loads it; what is not read stays zero. Reading
  // nothing at all is an error.
  function LoadPrevious(file: seq<Digest>, size: nat, blockSize: nat, n: nat): Option<seq<Digest>>
    requires blockSize > 0
  {
    var bytes := PreviousBytes(size, blockSize);
    if bytes == 0 then None
    else Some(seq(n, i => if 0 <= i < |file| && CHECKSUM_SIZE * i < bytes then file[i] else ZERO_DIGEST))
  }

  lemma BytesOfDigests(whole: nat)
    requires whole <= TWO32 / CHECKSUM_SIZE
    ensures (whole % TWO32) * CHECKSUM_SIZE % TWO32 ==
            if whole == TWO32 / CHECKSUM_SIZE then 0 else whole * CHECKSUM_SIZE
  {}

  // The session holds n whole blocks, or n - 1 and a short one.
  lemma WholeBlocks(c: Config)
    requires ValidConfig(c)
    ensures c.size / c.blockSize == if Len(c, c.n - 1) == c.blockSize then c.n else c.n - 1
  {
    BlocksCover(c.size, c.blockSize);
    OneMore(c.n - 1, c.blockSize);
    if c.size == c.n * c.blockSize {
      QuotientIs(c.size, c.blockSize, c.n);
    } else {
      QuotientIs(c.size, c.blockSize, c.n - 1);
    }
  }

  lemma BytesRead(c: Config)
    requires ValidConfig(c) && Comparable(c) && c.mode.Diff?
    ensures var whole := c.size / c.blockSize;
      PreviousBytes(c.size, c.blockSize) == if whole == TWO32 / CHECKSUM_SIZE then 0 else whole * CHECKSUM_SIZE
  {
    WholeBlocks(c);
    BytesOfDigests(c.size / c.blockSize);
  }

  lemma AtLeast(size: nat, m: nat, blockSize: nat)
    requires blockSize > 0
    ensures size / blockSize >= m <==> size >= m * blockSize
  {
    var q := size / blockSize;
    Euclid(size, blockSize);
    if q >= m { MulMonotone(m, q, blockSize); } else { MulMonotone(q + 1, m, blockSize); OneMore(q, blockSize); }
  }

  // The table loads exactly when the session holds at least one whole block and, with comparable
  // offsets, not 2^27 of them. What loads is the table up to a short last block, which always
  // compares as changed.
  lemma PreviousLoads(c: Config, file: seq<Digest>)
    requires ValidConfig(c) && Comparable(c) && c.mode.Diff? && |file| == c.n
    ensures var loaded := LoadPrevious(file, c.size, c.blockSize, c.n);
      && (loaded.Some? <==> c.blockSize <= c.size && c.size < (TWO32 / CHECKSUM_SIZE) * c.blockSize)
      && (loaded.Some? ==>
            && |loaded.value| == c.n
            && (forall i :: 0 <= i < c.n - 1 ==> loaded.value[i] == file[i])
            && (loaded.value[c.n - 1] == if Len(c, c.n - 1) == c.blockSize then file[c.n - 1] else ZERO_DIGEST))
  {
    BytesRead(c);
    AtLeast(c.size, 1, c.blockSize);
    AtLeast(c.size, TWO32 / CHECKSUM_SIZE, c.blockSize);
    WholeBlocks(c);
  }

  // ---------------------------------------------------------------- generations

  // One backup task of one session: its inputs, where it starts, its runs with their crashes, and how it ended.
  datatype Generation = Generation(config: Config, start: State, steps: seq<Action>, last: State)

  ghost predicate Completed(g: Generation) {
    var c := g.config;
    && ValidConfig(c) && Comparable(c) && c.hasher && CollisionFree(c.digest) && SkipsRightly(c)
    && CleanRun(c, g.start, g.steps, g.last)
    && Succeeded(g.last) && g.last.ct.pc.CEnd? && g.last.ct.pc.completed
  }

  // The next backup starts once the checkpoint of the last one has been cleared, writes onto the copy it left
  // and reads the table it saved.
  ghost predicate Follows(g: Generation, h: Generation) {
    var c, d := g.config, h.config;
    && d.mode.Diff? && d.n == c.n && d.size == c.size && d.blockSize == c.blockSize && d.digest == c.digest
    && d.base == g.last.files.disk && StartsOver(c, g.last, d, h.start)
    && d.blockSize > 0 && g.last.files.tableFile.Some?
    && LoadPrevious(g.last.files.tableFile.value, d.size, d.blockSize, d.n) == Some(d.prev)
  }

  ghost predicate Chain(gs: seq<Generation>) {
    && gs != [] && gs[0].config.mode.Direct? && gs[0].start == Init(gs[0].config) && Completed(gs[0])
    && forall k :: 0 < k < |gs| ==> Completed(gs[k]) && Follows(gs[k - 1], gs[k])
  }

  function Digests(c: Config): seq<Digest> {
    seq(|c.vol|, i requires 0 <= i < |c.vol| => c.digest(c.vol[i]))
  }

  ghost predicate Faithful(g: Generation) {
    && g.last.copy == g.last.files.disk == g.config.vol
    && g.last.files.tableFile == Some(Digests(g.config))
  }

  lemma CompletedIsFaithful(g: Generation)
    requires Completed(g) && g.start == Init(g.config) && PreviousTruthful(g.config)
    ensures Faithful(g)
  {
    CrashRestartConvergence(g.config, g.steps, g.last);
    TargetIsVolume(g.config);
    assert g.last.table == Digests(g.config);
  }

  // The digests of one volume, loaded by a backup onto a copy of it.
  lemma LoadedDescribes(c: Config, d: Config)
    requires |c.vol| == c.n && ValidConfig(d) && Comparable(d) && d.mode.Diff?
    requires d.n == c.n && d.digest == c.digest && d.base == c.vol
    requires LoadPrevious(Digests(c), d.size, d.blockSize, d.n) == Some(d.prev)
    ensures PreviousTruthful(d)
  {
    PreviousLoads(d, Digests(c));
  }

  // What the next generation loads describes what it writes onto.
  lemma LoadedIsTruthful(g: Generation, h: Generation)
    requires Completed(g) && Faithful(g) && Completed(h) && Follows(g, h)
    ensures PreviousTruthful(h.config)
  {
    LoadedDescribes(g.config, h.config);
  }

  // And it starts as if nothing had been there before.
  lemma FollowsAfresh(g: Generation, h: Generation)
    requires Completed(g) && g.start == Init(g.config) && Faithful(g) && Follows(g, h)
    ensures h.start == Init(h.config)
  {
    RunIsTrusted(g.config, {}, g.steps, g.last);
    StartsOverAfresh(g.config, g.last, h.config, h.start);
  }

  // After every backup of the chain the copy is the volume as that backup saw it, and the saved
  // table its digests: an incremental backup is as good as a full one.
  lemma {:induction false} ChainIsFaithful(gs: seq<Generation>, k: nat)
    requires Chain(gs) && k < |gs|
    ensures Faithful(gs[k]) && gs[k].start == Init(gs[k].config)
  {
    hide Follows, Faithful;
    if k > 0 {
      ChainIsFaithful(gs, k - 1);
      assert Completed(gs[k - 1]);
      FollowsAfresh(gs[k - 1], gs[k]);
      LoadedIsTruthful(gs[k - 1], gs[k]);
    }
    CompletedIsFaithful(gs[k]);
  }

  // The last of a chain of incremental backups leaves the very copy and table that one full backup
  // of the same volume leaves.
  lemma IncrementalEqualsFull(gs: seq<Generation>, full: Generation)
    requires Chain(gs) && Chain([full])
    requires var c := gs[|gs| - 1].config; full.config.vol == c.vol && full.config.digest == c.digest
    ensures var g := gs[|gs| - 1];
      g.last.files.disk == full.last.files.disk && g.last.files.tableFile == full.last.files.tableFile
  {
    ChainIsFaithful(gs, |gs| - 1);
    ChainIsFaithful([full], 0);
  }
}
