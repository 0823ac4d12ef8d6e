/** What survives crashes: flushed writes, flushed headers, and nothing that was never written. */
module CrashSafety {
  import opened Types
  import opened Metadata
  import opened Protocol
  import opened Order
  import opened Refinement
  import opened Placement
  import opened Headers
  import opened Durability
  import opened Staleness
  import opened Runs
  import opened History
  import opened CopyOnAccess

  /** A crash is always recoverable, and the new session presents what was recoverable just before it. */
  lemma CrashPresentsRecovered(cfg: Config, ss: seq<Sys>, ls: seq<Label>, n: nat, b: nat)
    requires IsRun(cfg, ss, ls) && n < |ss| && b < cfg.blocks
    ensures Shape(cfg, ss[n]) && Enabled(cfg, ss[n], Crash) && Shape(cfg, Step(cfg, ss[n], Crash))
    ensures Content(cfg, Step(cfg, ss[n], Crash), b) == Recovered(cfg, ss[n].disk, b)
  {
    RunSound(cfg, ss, ls, n);
    FlaggingCrash(cfg, ss[n]);
    GoodStep(cfg, ss[n], Crash);
    CrashContent(cfg, ss[n], b);
  }

  lemma CrashContent(cfg: Config, s: Sys, b: nat)
    requires Good(cfg, s) && Enabled(cfg, s, Crash) && Shape(cfg, Step(cfg, s, Crash)) && b < cfg.blocks
    ensures Content(cfg, Step(cfg, s, Crash), b) == Recovered(cfg, s.disk, b)
  {
    Reloads(cfg, s.disk.durMeta);
  }

  /**
   Reloading makes exactly the stripes with a durable header fetched, all others unfetched, and both
   counters their number.
   */
  lemma RecoveryRestoresHeaders(cfg: Config, ss: seq<Sys>, ls: seq<Label>, n: nat)
    requires IsRun(cfg, ss, ls) && n < |ss|
    ensures Shape(cfg, ss[n]) && Enabled(cfg, ss[n], Crash)
    ensures var t := Step(cfg, ss[n], Crash);
            && |t.status| == MAX_STRIPES
            && (forall x | 0 <= x < MAX_STRIPES ::
                  t.status[x] == if Flagged(ss[n].disk.durMeta, x) then Fetched else NotFetched)
            && t.headers == MetaFlags(ss[n].disk.durMeta)
            && t.fetched == t.flushed == Count(t.headers)
  {
    RunSound(cfg, ss, ls, n);
    Reloads(cfg, ss[n].disk.durMeta);
  }

  /**
   The bytes a bdev finds after a crash: zeroes if no metadata was made durable yet; else the magic, version 0.1, the
   low byte of the stripe size and, for every stripe, 1 exactly if its header is durable.
   */
  lemma MediumBytes(cfg: Config, ss: seq<Sys>, ls: seq<Label>, n: nat, x: nat)
    requires IsRun(cfg, ss, ls) && n < |ss| && x < MAX_STRIPES
    ensures MetaShape(ss[n].disk.durMeta)
    ensures var bytes := MetaBytes(cfg, ss[n].disk.durMeta);
            if ss[n].disk.durMeta.None? then
              forall i | 0 <= i < |bytes| :: bytes[i] == 0
            else
              && Ours(bytes) && bytes[13] == cfg.stripeSizeKb % 256
              && bytes[14 + 2 * x] == if Flagged(ss[n].disk.durMeta, x) then 1 else 0
  {
    RunSound(cfg, ss, ls, n);
    if ss[n].disk.durMeta.Some? {
      var h := Header(cfg.stripeSizeKb, ss[n].disk.durMeta.value);
      EncodedBytes(h, 14 + 2 * x);
      assert (14 + 2 * x) % 2 == 0 && (14 + 2 * x - 14) / 2 == x;
    }
  }

  lemma SubmitMarks(cfg: Config, ss: seq<Sys>, ls: seq<Label>, j: nat, b: nat)
    requires IsRun(cfg, ss, ls) && j < |ls| && ls[j].Submit? && ls[j].req.kind == Flush && b < cfg.blocks
    ensures Shape(cfg, ss[j]) && |ss[j + 1].reqs| == |ss[j].reqs| + 1
    ensures var io := ss[j + 1].reqs[|ss[j].reqs|];
            io.req == ls[j].req && |io.mark| == cfg.blocks
            && (Backed(cfg, ss[j].status, b) ==> io.mark[b] == ss[j].disk.vol[b].ver)
  {
    assert Goes(cfg, ss, ls, j);
  }

  lemma WriteKept(cfg: Config, ss: seq<Sys>, ls: seq<Label>, n: nat, w: nat, b: nat)
    requires IsRun(cfg, ss, ls) && TailApart(cfg) && n < |ss|
    requires w < |ss[n].reqs| && ss[n].reqs[w].phase.WriteOk? && b in Range(ss[n].reqs[w].req)
    ensures Shape(cfg, ss[n]) && b in ss[n].reqs[w].phase.vers
    ensures VersionKept(cfg, ss[n].status, ss[n].disk, ss[n].hist, ss[n].reqs[w].req, b, ss[n].reqs[w].phase.vers[b])
  {
    RunDurable(cfg, ss, ls, n);
    assert IoShape(cfg, ss[n].reqs[w], |ss[n].chans|);
    assert IoKept(cfg, ss[n].status, ss[n].disk, ss[n].hist, ss[n].reqs[w]);
  }

  lemma FlushRaises(cfg: Config, ss: seq<Sys>, ls: seq<Label>, n: nat, f: nat, b: nat)
    requires IsRun(cfg, ss, ls) && TailApart(cfg) && n < |ss|
    requires f < |ss[n].reqs| && ss[n].reqs[f].phase.FlushOk? && b in Range(ss[n].reqs[f].req)
    ensures b < cfg.blocks == |ss[n].reqs[f].mark| == |ss[n].hist.floor|
    ensures ss[n].reqs[f].mark[b] >= 0 ==> ss[n].reqs[f].mark[b] <= ss[n].hist.floor[b]
  {
    RunDurable(cfg, ss, ls, n);
    assert IoShape(cfg, ss[n].reqs[f], |ss[n].chans|);
    assert IoKept(cfg, ss[n].status, ss[n].disk, ss[n].hist, ss[n].reqs[f]);
    assert MarkKept(cfg, ss[n].status, ss[n].disk, ss[n].hist.floor, ss[n].reqs[f], b);
  }

  lemma FloorRecovered(cfg: Config, ss: seq<Sys>, ls: seq<Label>, n: nat, b: nat)
    requires IsRun(cfg, ss, ls) && TailApart(cfg) && n < |ss| && b < cfg.blocks
    ensures Shape(cfg, ss[n])
    ensures ss[n].hist.floor[b] >= 0 ==> Recovered(cfg, ss[n].disk, b).ver >= ss[n].hist.floor[b]
    ensures Honest(cfg, ss[n].hist.log, b, Recovered(cfg, ss[n].disk, b))
  {
    RunDurable(cfg, ss, ls, n);
  }

  /** By moment `i`, request `w` has written block `b`. */
  ghost predicate Wrote(s: Sys, w: nat, b: nat) {
    && w < |s.reqs| && s.reqs[w].phase.WriteOk? && b in s.reqs[w].phase.vers
    && s.reqs[w].req.start <= b < s.reqs[w].req.start + s.reqs[w].req.count
  }

  /**
   A write of block `b` has completed by moment `i`; step `j` then submits a flush that covers `b`,
   and by moment `k` of the same session the flush has succeeded.
   */
  ghost predicate Flushed(ss: seq<Sys>, ls: seq<Label>, i: nat, w: nat, j: nat, k: nat, b: nat) {
    && i <= j < k < |ss| == |ls| + 1 && Wrote(ss[i], w, b)
    && ls[j].Submit? && ls[j].req.kind == Flush && ls[j].req.start <= b < ls[j].req.start + ls[j].req.count
    && ss[i].hist.session == ss[k].hist.session
    && |ss[j].reqs| < |ss[k].reqs| && ss[k].reqs[|ss[j].reqs|].phase.FlushOk?
  }

  /** The number of the block write with which request `w` wrote block `b`, and its data. */
  ghost predicate IsWriteOf(s: Sys, w: nat, b: nat, log: seq<Entry>, v: nat)
    requires Wrote(s, w, b)
  {
    && v == s.reqs[w].phase.vers[b] && 0 < v <= |log| && |s.reqs[w].req.data| == s.reqs[w].req.count
    && log[v - 1] == Entry(b, s.reqs[w].req.data[b - s.reqs[w].req.start])
  }

  /** A flush submitted after a write completed is marked with that write or a later one. */
  lemma FlushMarked(cfg: Config, ss: seq<Sys>, ls: seq<Label>, i: nat, w: nat, j: nat, b: nat)
    requires IsRun(cfg, ss, ls) && TailApart(cfg) && i <= j < |ls| && Wrote(ss[i], w, b)
    requires ls[j].Submit? && ls[j].req.kind == Flush && ss[i].hist.session == ss[j].hist.session
    ensures IsWriteOf(ss[i], w, b, ss[j].hist.log, ss[i].reqs[w].phase.vers[b])
    ensures |ss[j + 1].reqs| == |ss[j].reqs| + 1 && b < cfg.blocks
    ensures var io := ss[j + 1].reqs[|ss[j].reqs|];
            io.req == ls[j].req && |io.mark| == cfg.blocks && ss[i].reqs[w].phase.vers[b] <= io.mark[b]
  {
    RunStory(cfg, ss, ls);
    Within(ss, i, j);
    WriteKept(cfg, ss, ls, j, w, b);
    SubmitMarks(cfg, ss, ls, j, b);
  }

  /** From then on the floor of the block is at least that write. */
  lemma FlushedFloor(cfg: Config, ss: seq<Sys>, ls: seq<Label>, i: nat, w: nat, j: nat, k: nat, m: nat, b: nat)
    requires IsRun(cfg, ss, ls) && TailApart(cfg) && Flushed(ss, ls, i, w, j, k, b) && k <= m < |ss|
    ensures b < cfg.blocks == |ss[m].hist.floor|
    ensures IsWriteOf(ss[i], w, b, ss[m].hist.log, ss[i].reqs[w].phase.vers[b])
    ensures ss[i].reqs[w].phase.vers[b] <= ss[m].hist.floor[b]
  {
    var f := |ss[j].reqs|;
    RunStory(cfg, ss, ls);
    Across(ss, i, j);
    Across(ss, j, j + 1);
    Across(ss, j + 1, k);
    FlushMarked(cfg, ss, ls, i, w, j, b);
    Within(ss, j + 1, k);
    FlushRaises(cfg, ss, ls, k, f, b);
    Across(ss, k, m);
    Across(ss, j, m);
  }

  /**
   Whenever a crash comes after that, in this session or a later one, the block is recovered as that write
   or a later one left it.
   */
  lemma FlushSurvivesCrashes(cfg: Config, ss: seq<Sys>, ls: seq<Label>, i: nat, w: nat, j: nat, k: nat, m: nat, b: nat)
    requires IsRun(cfg, ss, ls) && TailApart(cfg) && Flushed(ss, ls, i, w, j, k, b) && k <= m < |ss|
    ensures Shape(cfg, ss[m]) && b < cfg.blocks
    ensures IsWriteOf(ss[i], w, b, ss[m].hist.log, ss[i].reqs[w].phase.vers[b])
    ensures var cell := Recovered(cfg, ss[m].disk, b);
            && ss[i].reqs[w].phase.vers[b] <= cell.ver <= |ss[m].hist.log|
            && ss[m].hist.log[cell.ver - 1] == Entry(b, cell.data)
  {
    FlushedFloor(cfg, ss, ls, i, w, j, k, m, b);
    FloorRecovered(cfg, ss, ls, m, b);
  }

  lemma DataFlushWants(cfg: Config, ss: seq<Sys>, ls: seq<Label>, j: nat, f: nat)
    requires IsRun(cfg, ss, ls) && j < |ls| && ls[j].DataFlushDone? && ls[j].i == f && ls[j].ok
    ensures f < |ss[j + 1].reqs| && ss[j + 1].hist.session == ss[j].hist.session
    ensures var p := ss[j + 1].reqs[f].phase; p.Error? || ((p.MetaWrite? || p.FlushOk?) && p.want == ss[j].headers)
  {
    assert Goes(cfg, ss, ls, j);
  }

  lemma WantDurable(cfg: Config, ss: seq<Sys>, ls: seq<Label>, n: nat, f: nat)
    requires IsRun(cfg, ss, ls) && n < |ss| && f < |ss[n].reqs| && ss[n].reqs[f].phase.FlushOk?
    ensures Included(ss[n].reqs[f].phase.want, MetaFlags(ss[n].disk.durMeta))
  {
    RunSound(cfg, ss, ls, n);
    assert PhaseFlags(ss[n].headers, MetaFlags(ss[n].disk.volMeta), MetaFlags(ss[n].disk.durMeta), ss[n].reqs[f].phase);
  }

  /**
   Step `j` completes the data flush of request `f`, which has succeeded by moment `k` of the same
   session. From then on, over all crashes and however other flushes interleave, the header of every
   stripe that was fetched at `j` is durable.
   */
  lemma FlushedHeadersDurable(cfg: Config, ss: seq<Sys>, ls: seq<Label>, j: nat, f: nat, k: nat, m: nat, x: nat)
    requires IsRun(cfg, ss, ls) && j < k <= m < |ss| && ss[j].hist.session == ss[k].hist.session
    requires ls[j].DataFlushDone? && ls[j].i == f && ls[j].ok
    requires f < |ss[k].reqs| && ss[k].reqs[f].phase.FlushOk?
    requires x < |ss[j].status| && ss[j].status[x] == Fetched
    ensures Flagged(ss[m].disk.durMeta, x)
  {
    RunStory(cfg, ss, ls);
    DataFlushWants(cfg, ss, ls, j, f);
    Within(ss, j + 1, k);
    WantDurable(cfg, ss, ls, k, f);
    Across(ss, k, m);
    RunSound(cfg, ss, ls, j);
    assert ss[j].headers[x];
    assert MetaFlags(ss[m].disk.durMeta)[x];
  }

  /** Within a session `stripes_flushed` never decreases and never exceeds `stripes_fetched`. */
  lemma FlushedNeverDecreases(cfg: Config, ss: seq<Sys>, ls: seq<Label>, m: nat, n: nat)
    requires IsRun(cfg, ss, ls) && m <= n < |ss| && ss[m].hist.session == ss[n].hist.session
    ensures ss[m].flushed <= ss[n].flushed <= ss[n].fetched
  {
    RunStory(cfg, ss, ls);
    Within(ss, m, n);
    CountersBracketHeaders(cfg, ss, ls, n);
  }

  /** The counters bracket the headers, and when they agree nothing is left to write. */
  lemma CountersBracketHeaders(cfg: Config, ss: seq<Sys>, ls: seq<Label>, n: nat)
    requires IsRun(cfg, ss, ls) && n < |ss|
    ensures var s := ss[n];
            && Included(MetaFlags(s.disk.durMeta), s.headers)
            && s.flushed <= Count(MetaFlags(s.disk.durMeta)) <= Count(s.headers) == s.fetched
            && (s.flushed == s.fetched ==> MetaFlags(s.disk.durMeta) == s.headers)
  {
    RunSound(cfg, ss, ls, n);
    var s := ss[n];
    CountersAgree(s.status, s.headers, s.fetched, s.flushed, MetaFlags(s.disk.volMeta), MetaFlags(s.disk.durMeta));
  }

  /**
   Without a volatile cache (or without flushes, an image or a stripe to copy) a crash exposes only the
   image, the initial contents and block writes.
   */
  lemma CrashExposesNothingStale(cfg: Config, ss: seq<Sys>, ls: seq<Label>, n: nat, b: nat)
    requires IsRun(cfg, ss, ls) && CopiesExact(cfg) && NeverStale(cfg) && n < |ss| && b < cfg.blocks
    ensures Shape(cfg, ss[n])
    ensures var cell := Recovered(cfg, ss[n].disk, b);
            || (cell.ver == 0 && cell.data == CopiedDisk(cfg)[b].data)
            || (0 < cell.ver <= |ss[n].hist.log| && ss[n].hist.log[cell.ver - 1] == Entry(b, cell.data))
  {
    ExactKeepsApart(cfg);
    RunFaithful(cfg, ss, ls, n);
    RecoversClean(cfg, ss[n], b);
    FloorRecovered(cfg, ss, ls, n, b);
  }
}
