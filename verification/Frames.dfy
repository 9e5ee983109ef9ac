/** What each thread may change. */
module Frames {
  import opened Common
  import opened Pipeline

  // What the history says about the bits and the digests.
  predicate SameTaint(h: History, h': History) { h'.memBad == h.memBad && h'.hashBad == h.hashBad }

  predicate StatusKept(st: Status, st': Status) { st' == st || st' == AbortStatus(st) }

  // The control thread changes its own part and, when it aborts, the three statuses.
  ghost predicate ControlFrame(s: State, s': State) {
    && s' == s.(ct := s'.ct, files := s'.files, rd := s.rd.(status := s'.rd.status),
                hs := s.hs.(status := s'.hs.status), wr := s.wr.(status := s'.wr.status))
    && StatusKept(s.rd.status, s'.rd.status)
    && StatusKept(s.hs.status, s'.hs.status)
    && StatusKept(s.wr.status, s'.wr.status)
    && (s.ct.habort ==> s'.ct.habort)
    && (|s.copy| == |s.files.disk| ==> |s'.files.disk| == |s.files.disk|)
  }

  lemma DiskIsFlushed(c: Config, s: State, ok: bool)
    ensures var disk := NextFiles(c, s, ok).disk; disk == s.files.disk || disk == s.copy
  {}

  lemma ControlFrames(c: Config, s: State, choice: Choice, ok: bool)
    requires ControlCan(c, s, choice)
    ensures ControlFrame(s, ControlStep(c, s, choice, ok))
  {
    DiskIsFlushed(c, s, ok);
  }

  lemma ReaderSizes(c: Config, s: State, fail: bool)
    requires ReaderCan(c, s, fail)
    ensures Sized(c, ReaderStep(c, s, fail))
  {}

  lemma WorkerSizes(c: Config, s: State, j: nat)
    requires WorkerCan(c, s, j)
    ensures Sized(c, WorkerStep(c, s, j))
  {}

  lemma WriterSizes(c: Config, s: State, fail: bool, junk: Block)
    requires WriterCan(c, s)
    ensures Sized(c, WriterStep(c, s, fail, junk))
  {}

  // Where the reader takes a block.
  predicate HandedOut(c: Config, l: Loc) { l.AtReader? || l.AtHashQueue? || (!c.hasher && l.AtWriteQueue?) }

  // What a step of the reader does to the rest of the session.
  lemma ReaderEffect(c: Config, s: State, fail: bool)
    requires ReaderCan(c, s, fail)
    ensures var s', i := ReaderStep(c, s, fail), s.rd.cur;
      && s'.hs == s.hs && s'.wr == s.wr && s'.bits == s.bits && s'.hist.restored == s.hist.restored
      && s'.table == s.table && s'.copy == s.copy && s'.files == s.files && s'.ct == s.ct && SameTaint(s.hist, s'.hist)
      && (s'.hist.loc != s.hist.loc ==>
            && (s.rd.pc.RFetch? || s.rd.pc.RPush?) && i < c.n && |s'.hist.loc| == c.n
            && s'.hist.loc == s.hist.loc[i := s'.hist.loc[i]]
            && (HandedOut(c, s'.hist.loc[i]) || (s.rd.pc.RPush? && (if c.hasher then s.hq else s.wq).finished)))
  {}

  // And a step of the writer.
  lemma WriterLeaves(c: Config, s: State, fail: bool, junk: Block)
    requires WriterCan(c, s)
    ensures var s' := WriterStep(c, s, fail, junk);
      s'.rd == s.rd && s'.hs == s.hs && s'.hq == s.hq && s'.table == s.table && s'.ct == s.ct
  {}

  lemma WriterTaints(c: Config, s: State, fail: bool, junk: Block)
    requires WriterCan(c, s)
    ensures var s' := WriterStep(c, s, fail, junk);
      && s'.hist.restored == s.hist.restored && s'.hist.hashBad == s.hist.hashBad && (s.hist.memBad ==> s'.hist.memBad)
      && s'.files == s.files.(fileBad := s'.files.fileBad) && (s.files.fileBad ==> s'.files.fileBad)
      && (!s.wr.pc.NGot? ==> s'.copy == s.copy && s'.files == s.files && s'.hist.memBad == s.hist.memBad)
  {}

  // Where a step of the writer takes a block.
  lemma WriterTakesTo(c: Config, s: State, fail: bool, junk: Block)
    requires WriterCan(c, s)
    ensures var s' := WriterStep(c, s, fail, junk);
      if s.wr.pc.NPop? && s.wq.items != [] then s'.hist.loc == s.hist.loc[s.wq.items[0].index := AtWriter]
      else if s.wr.pc.NGot? then
        var i := s.wr.pc.b.index;
        && s'.hist.loc == s.hist.loc[i := if s.wr.failed then Lost else Written]
        && (s'.copy == s.copy || (!s.wr.failed && s'.copy == s.copy[i := s'.copy[i]]))
      else s'.hist == s.hist
  {}
}
