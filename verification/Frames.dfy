/** What the different kinds of steps leave alone. */
module Frames {
  import opened Types
  import opened Protocol

  /** Dispatched and neither completed nor lost. */
  predicate InFlight(phase: Phase) {
    phase.Buffering? || phase.BaseRead? || phase.ImageRead? || phase.Writing?
    || phase.DataFlush? || phase.MetaWrite? || phase.MetaFlush?
  }

  /** Reads that count against the limit of a channel. */
  predicate ReadInFlight(phase: Phase) {
    phase.Buffering? || phase.BaseRead? || phase.ImageRead?
  }

  /** A flush that has been dispatched and not completed. */
  predicate Syncs(phase: Phase) {
    phase.DataFlush? || phase.MetaWrite? || phase.MetaFlush?
  }

  ghost predicate PhaseOnly(a: seq<Io>, b: seq<Io>, i: nat) {
    && i < |a| == |b|
    && b == a[i := a[i].(phase := b[i].phase)]
  }

  /** From `s` to `t` request `i`, which is in flight, advances; no list, queue, slot or status changes. */
  ghost predicate Touches(s: Sys, t: Sys, i: nat) {
    && t.status == s.status && t.headers == s.headers && t.fetched == s.fetched
    && PhaseOnly(s.reqs, t.reqs, i)
    && InFlight(s.reqs[i].phase) && !t.reqs[i].phase.Waiting?
    && |t.chans| == |s.chans|
    && (forall c | 0 <= c < |s.chans| ::
          t.chans[c] == s.chans[c].(activeReads := t.chans[c].activeReads, prepared := t.chans[c].prepared))
  }

  /** From `s` to `t` only the io_uring of a channel and the state of its poll change. */
  ghost predicate Rings(s: Sys, t: Sys) {
    && t == s.(chans := t.chans) && |t.chans| == |s.chans|
    && forall c | 0 <= c < |s.chans| ::
         t.chans[c] == s.chans[c].(polling := t.chans[c].polling, prepared := t.chans[c].prepared)
  }

  /** From `s` to `t` the first request of channel `c` leaves its list. */
  ghost predicate Pops(s: Sys, t: Sys, c: nat) {
    && t.status == s.status && t.headers == s.headers && t.fetched == s.fetched
    && t.flushed == s.flushed && t.disk == s.disk
    && t.hist == s.hist.(done := t.hist.done)
    && c < |s.chans| == |t.chans| && s.chans[c].io != []
    && t.chans == s.chans[c := t.chans[c]]
    && t.chans[c] == Popped(s.chans[c]).(activeReads := t.chans[c].activeReads)
    && PhaseOnly(s.reqs, t.reqs, s.chans[c].io[0])
    && !t.reqs[s.chans[c].io[0]].phase.Waiting?
  }

  lemma TouchesRead(cfg: Config, s: Sys, l: Label)
    requires Shape(cfg, s) && Enabled(cfg, s, l) && OfRead(l)
    ensures Touches(s, RequestStep(cfg, s, l), l.i)
    ensures RequestStep(cfg, s, l).disk == s.disk && RequestStep(cfg, s, l).flushed == s.flushed
    ensures RequestStep(cfg, s, l).hist == s.hist.(done := RequestStep(cfg, s, l).hist.done)
  {
    if l.GetBuf? {
      GetBufTouches(cfg, s, l.i, l.ok, l.accepted);
    }
  }

  /** A step of a read leaves it a read, successful or failed. */
  lemma ReadStays(cfg: Config, s: Sys, l: Label)
    requires Shape(cfg, s) && Enabled(cfg, s, l) && OfRead(l)
    ensures |RequestStep(cfg, s, l).reqs| == |s.reqs|
    ensures var p := RequestStep(cfg, s, l).reqs[l.i].phase; p.BaseRead? || p.ImageRead? || p.ReadOk? || p.Error?
  {
  }

  lemma GetBufTouches(cfg: Config, s: Sys, i: nat, ok: bool, accepted: bool)
    requires 0 < cfg.stripeBlocks && i < |s.reqs| && s.reqs[i].phase.Buffering? && s.reqs[i].chan < |s.chans|
    requires Stripe(cfg, s.reqs[i].req.start) < |s.status|
    ensures var t := GetBufStep(cfg, s, i, ok, accepted);
            && Touches(s, t, i) && t.disk == s.disk && t.flushed == s.flushed && t.hist == s.hist.(done := t.hist.done)
  {
  }

  lemma TouchesWrite(cfg: Config, s: Sys, l: Label)
    requires Shape(cfg, s) && Enabled(cfg, s, l) && OfWrite(l)
    ensures Touches(s, RequestStep(cfg, s, l), l.i)
    ensures RequestStep(cfg, s, l).chans == s.chans && RequestStep(cfg, s, l).flushed == s.flushed
  {
  }

  lemma TouchesFlush(cfg: Config, s: Sys, l: Label)
    requires Shape(cfg, s) && Enabled(cfg, s, l) && OfFlush(l)
    ensures Touches(s, FlushStep(cfg, s, l), l.i)
    ensures FlushStep(cfg, s, l).chans == s.chans && FlushStep(cfg, s, l).disk.vol == s.disk.vol
  {
    if l.FlushBlock? || l.DataFlushDone? {
      TouchesDataFlush(cfg, s, l);
    } else {
      TouchesMetaFlush(cfg, s, l);
    }
  }

  lemma TouchesDataFlush(cfg: Config, s: Sys, l: Label)
    requires Shape(cfg, s) && Enabled(cfg, s, l) && (l.FlushBlock? || l.DataFlushDone?)
    ensures Touches(s, FlushStep(cfg, s, l), l.i)
    ensures FlushStep(cfg, s, l).chans == s.chans && FlushStep(cfg, s, l).disk.vol == s.disk.vol
  {
  }

  lemma TouchesMetaFlush(cfg: Config, s: Sys, l: Label)
    requires Shape(cfg, s) && Enabled(cfg, s, l) && OfFlush(l) && !l.FlushBlock? && !l.DataFlushDone?
    ensures Touches(s, FlushStep(cfg, s, l), l.i)
    ensures FlushStep(cfg, s, l).chans == s.chans && FlushStep(cfg, s, l).disk.vol == s.disk.vol
  {
  }

  lemma RingsOnly(cfg: Config, s: Sys, l: Label)
    requires Shape(cfg, s) && Enabled(cfg, s, l) && l.Ring?
    ensures Rings(s, Step(cfg, s, l))
  {
  }

  lemma PopsHead(cfg: Config, s: Sys, l: Label)
    requires Shape(cfg, s) && Enabled(cfg, s, l) && (l.Reject? || l.Bug? || l.Serve?)
    ensures Pops(s, Step(cfg, s, l), l.c)
  {
  }

  lemma TouchesOne(cfg: Config, s: Sys, l: Label)
    requires Shape(cfg, s) && Enabled(cfg, s, l) && (OfRead(l) || OfWrite(l) || OfFlush(l))
    ensures Touches(s, Step(cfg, s, l), l.i)
  {
    if OfRead(l) {
      StepIsRequest(cfg, s, l);
      TouchesRead(cfg, s, l);
    } else if OfWrite(l) {
      StepIsRequest(cfg, s, l);
      TouchesWrite(cfg, s, l);
    } else {
      StepIsFlush(cfg, s, l);
      TouchesFlush(cfg, s, l);
    }
  }

  lemma StepIsRequest(cfg: Config, s: Sys, l: Label)
    requires Shape(cfg, s) && Enabled(cfg, s, l) && (OfRead(l) || OfWrite(l))
    ensures Step(cfg, s, l) == RequestStep(cfg, s, l)
  {
  }

  lemma StepIsFlush(cfg: Config, s: Sys, l: Label)
    requires Shape(cfg, s) && Enabled(cfg, s, l) && OfFlush(l)
    ensures Step(cfg, s, l) == FlushStep(cfg, s, l)
  {
  }

  lemma StepIsDevice(cfg: Config, s: Sys, l: Label)
    requires Shape(cfg, s) && Enabled(cfg, s, l) && OfDevice(l)
    ensures Step(cfg, s, l) == DeviceStep(cfg, s, l)
  {
  }
}
