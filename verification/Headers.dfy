/**
 The stripe headers in memory, in the cache of the base device and on its medium, and the two
 counters that stand for them.
 */
module Headers {
  import opened Types
  import opened Metadata
  import opened Protocol
  import opened Frames
  import opened Order
  import opened Ownership

  /** The flags in a metadata region. */
  function MetaFlags(meta: Option<seq<bool>>): seq<bool> {
    if meta.Some? then meta.value else Cleared()
  }

  ghost predicate PhaseFlags(headers: seq<bool>, vol: seq<bool>, dur: seq<bool>, phase: Phase) {
    match phase
    case MetaWrite(snap, want, applied) =>
      snap == Count(want) && Included(want, headers) && (applied ==> Included(want, vol))
    case MetaFlush(snap, want, settled) =>
      snap == Count(want) && Included(want, vol) && (settled ==> Included(want, dur))
    case FlushOk(want) => Included(want, dur)
    case _ => true
  }

  ghost predicate AllFlags(headers: seq<bool>, vol: seq<bool>, dur: seq<bool>, reqs: seq<Io>) {
    forall i | 0 <= i < |reqs| :: PhaseFlags(headers, vol, dur, reqs[i].phase)
  }

  ghost predicate HeadersMatch(status: seq<Status>, headers: seq<bool>) {
    |status| == |headers| && forall x | 0 <= x < |status| :: headers[x] <==> status[x] == Fetched
  }

  /** Durable headers are a subset of cached ones, these of the ones in memory, and the counters bound them. */
  ghost predicate Counted(status: seq<Status>, headers: seq<bool>, fetched: nat, flushed: nat, vol: seq<bool>,
                          dur: seq<bool>) {
    && HeadersMatch(status, headers)
    && Included(dur, vol) && Included(vol, headers)
    && fetched == Count(headers)
    && flushed <= Count(dur)
  }

  ghost predicate Flagging(s: Sys) {
    && Counted(s.status, s.headers, s.fetched, s.flushed, MetaFlags(s.disk.volMeta), MetaFlags(s.disk.durMeta))
    && AllFlags(s.headers, MetaFlags(s.disk.volMeta), MetaFlags(s.disk.durMeta), s.reqs)
  }

  /** The counter comparison is a set comparison. */
  lemma CountersAgree(status: seq<Status>, headers: seq<bool>, fetched: nat, flushed: nat, vol: seq<bool>,
                      dur: seq<bool>)
    requires Counted(status, headers, fetched, flushed, vol, dur)
    ensures flushed <= Count(dur) <= Count(headers) == fetched
    ensures flushed == fetched ==> dur == headers
  {
    CountIncluded(dur, headers);
  }

  lemma FlagsLater(headers: seq<bool>, vol: seq<bool>, dur: seq<bool>, headers': seq<bool>, vol': seq<bool>,
                   dur': seq<bool>, reqs: seq<Io>)
    requires AllFlags(headers, vol, dur, reqs)
    requires Included(headers, headers') && Included(vol, vol') && Included(dur, dur')
    ensures AllFlags(headers', vol', dur', reqs)
  {
    forall i | 0 <= i < |reqs|
      ensures PhaseFlags(headers', vol', dur', reqs[i].phase)
    {
      assert PhaseFlags(headers, vol, dur, reqs[i].phase);
    }
  }

  /** Steps that change no header and no counter. */
  lemma FlaggingSame(s: Sys, t: Sys)
    requires Flagging(s)
    requires HeadersMatch(t.status, t.headers) && t.headers == s.headers && t.fetched == s.fetched
    requires t.flushed == s.flushed
    requires t.disk.volMeta == s.disk.volMeta && t.disk.durMeta == s.disk.durMeta
    requires forall i | 0 <= i < |t.reqs| ::
               || (i < |s.reqs| && t.reqs[i].phase == s.reqs[i].phase)
               || PhaseFlags(s.headers, MetaFlags(s.disk.volMeta), MetaFlags(s.disk.durMeta), t.reqs[i].phase)
    ensures Flagging(t)
  {
  }

  /** A stripe becomes fetched. */
  lemma FlaggingDone(cfg: Config, s: Sys, c: nat, k: nat)
    requires Shape(cfg, s) && OwnedOnce(s.status, s.chans) && Flagging(s) && InSlot(s, c, k)
    requires s.chans[c].slots[k].Copying?
    ensures Flagging(FetchDoneStep(s, c, k))
  {
    var x := s.chans[c].slots[k].stripe;
    SlotInflight(s.status, s.chans, c, k);
    CountSet(s.headers, x);
    var t := FetchDoneStep(s, c, k);
    FlagsLater(s.headers, MetaFlags(s.disk.volMeta), MetaFlags(s.disk.durMeta),
               t.headers, MetaFlags(s.disk.volMeta), MetaFlags(s.disk.durMeta), s.reqs);
  }

  /** The base device's copy of the metadata moves towards the one in memory. */
  lemma FlaggingMeta(s: Sys, t: Sys, i: nat)
    requires Flagging(s) && t.status == s.status && t.headers == s.headers && t.fetched == s.fetched
    requires t.flushed == s.flushed
    requires Included(MetaFlags(s.disk.volMeta), MetaFlags(t.disk.volMeta))
    requires Included(MetaFlags(t.disk.volMeta), s.headers)
    requires Included(MetaFlags(s.disk.durMeta), MetaFlags(t.disk.durMeta))
    requires Included(MetaFlags(t.disk.durMeta), MetaFlags(t.disk.volMeta))
    requires t.reqs == s.reqs || PhaseOnly(s.reqs, t.reqs, i)
    requires i < |t.reqs| ==>
              PhaseFlags(t.headers, MetaFlags(t.disk.volMeta), MetaFlags(t.disk.durMeta), t.reqs[i].phase)
    ensures Flagging(t)
  {
    var vol, dur := MetaFlags(t.disk.volMeta), MetaFlags(t.disk.durMeta);
    CountIncluded(MetaFlags(s.disk.durMeta), dur);
    FlagsLater(s.headers, MetaFlags(s.disk.volMeta), MetaFlags(s.disk.durMeta), t.headers, vol, dur, s.reqs);
  }

  lemma FlaggingApply(cfg: Config, s: Sys, i: nat)
    requires Shape(cfg, s) && Flagging(s) && i < |s.reqs| && s.reqs[i].phase.MetaWrite?
    ensures Flagging(MetaApplyStep(cfg, s, i))
  {
    assert PhaseFlags(s.headers, MetaFlags(s.disk.volMeta), MetaFlags(s.disk.durMeta), s.reqs[i].phase);
    FlaggingMeta(s, MetaApplyStep(cfg, s, i), i);
  }

  lemma FlaggingSettle(cfg: Config, s: Sys, i: nat)
    requires Shape(cfg, s) && Flagging(s) && i < |s.reqs| && s.reqs[i].phase.MetaFlush?
    ensures Flagging(MetaSettleStep(s, i))
  {
    assert PhaseFlags(s.headers, MetaFlags(s.disk.volMeta), MetaFlags(s.disk.durMeta), s.reqs[i].phase);
    FlaggingMeta(s, MetaSettleStep(s, i), i);
  }

  /** The counter is raised to what this flush made durable, whatever other flushes did meanwhile. */
  lemma FlaggingFlushed(cfg: Config, s: Sys, i: nat, ok: bool)
    requires Shape(cfg, s) && Flagging(s) && i < |s.reqs| && s.reqs[i].phase.MetaFlush?
    requires ok ==> s.reqs[i].phase.settled
    requires |s.reqs[i].mark| == |s.hist.floor|
    ensures Flagging(MetaFlushDoneStep(s, i, ok))
  {
    assert PhaseFlags(s.headers, MetaFlags(s.disk.volMeta), MetaFlags(s.disk.durMeta), s.reqs[i].phase);
    if ok {
      CountIncluded(s.reqs[i].phase.want, MetaFlags(s.disk.durMeta));
    }
  }

  lemma FlaggingFlushBlock(s: Sys, i: nat, b: nat)
    requires Flagging(s) && i < |s.reqs| && s.reqs[i].phase.DataFlush? && b < |s.disk.vol| == |s.disk.dur|
    ensures Flagging(FlushBlockStep(s, i, b))
  {
    FlaggingSame(s, FlushBlockStep(s, i, b));
  }

  lemma FlaggingMetaWritten(s: Sys, i: nat, ok: bool, accepted: bool)
    requires Flagging(s) && i < |s.reqs| && s.reqs[i].phase.MetaWrite? && (ok ==> s.reqs[i].phase.applied)
    ensures Flagging(MetaWriteDoneStep(s, i, ok, accepted))
  {
    assert PhaseFlags(s.headers, MetaFlags(s.disk.volMeta), MetaFlags(s.disk.durMeta), s.reqs[i].phase);
    FlaggingSame(s, MetaWriteDoneStep(s, i, ok, accepted));
  }

  lemma FlaggingDataFlushed(cfg: Config, s: Sys, i: nat, ok: bool, accepted: bool)
    requires Shape(cfg, s) && Flagging(s) && i < |s.reqs| && s.reqs[i].phase.DataFlush?
    requires |s.reqs[i].mark| == |s.hist.floor|
    ensures Flagging(DataFlushDoneStep(s, i, ok, accepted))
  {
    var t := DataFlushDoneStep(s, i, ok, accepted);
    CountersAgree(s.status, s.headers, s.fetched, s.flushed, MetaFlags(s.disk.volMeta), MetaFlags(s.disk.durMeta));
    FlaggingSame(s, t);
  }

  // ---------------------------------------------------------------- reload

  lemma Reloads(cfg: Config, meta: Option<seq<bool>>)
    requires MetaShape(meta)
    ensures Load(MetaBytes(cfg, meta)) ==
            Loaded(StatusOf(MetaFlags(meta)), MetaFlags(meta), Count(MetaFlags(meta)), Count(MetaFlags(meta)))
  {
    match meta
    case None =>
      LoadZeroed();
      CountNone(Cleared());
    case Some(flags) =>
      LoadWritten(Header(cfg.stripeSizeKb, flags));
  }

  lemma FlaggingCrash(cfg: Config, s: Sys)
    requires Shape(cfg, s)
    ensures Enabled(cfg, s, Crash) && Flagging(DeviceStep(cfg, s, Crash))
  {
    Reloads(cfg, s.disk.durMeta);
  }

  // ---------------------------------------------------------------- every step

  lemma FlaggingFetchStep(cfg: Config, s: Sys, l: Label)
    requires Good(cfg, s) && Fetches(cfg, s) && Flagging(s) && Enabled(cfg, s, l) && OfFetch(l)
    ensures Flagging(Step(cfg, s, l))
  {
    SlotInflightIfBusy(cfg, s, l.c, l.k);
    if l.FetchDone? {
      FlaggingDone(cfg, s, l.c, l.k);
    } else {
      FlaggingSame(s, Step(cfg, s, l));
    }
  }

  lemma SlotInflightIfBusy(cfg: Config, s: Sys, c: nat, k: nat)
    requires Shape(cfg, s) && OwnedOnce(s.status, s.chans) && InSlot(s, c, k)
    ensures !s.chans[c].slots[k].Free? ==> s.status[s.chans[c].slots[k].stripe] == Inflight
  {
    if !s.chans[c].slots[k].Free? {
      SlotInflight(s.status, s.chans, c, k);
    }
  }

  lemma FlaggingSubmit(cfg: Config, s: Sys, c: nat, req: Request)
    requires Shape(cfg, s) && Flagging(s) && c < |s.chans| && RequestOk(cfg, req)
    ensures Flagging(SubmitStep(cfg, s, c, req))
  {
    FlaggingSame(s, SubmitStep(cfg, s, c, req));
  }

  lemma FlaggingPollStep(cfg: Config, s: Sys, l: Label)
    requires Good(cfg, s) && Flagging(s) && Enabled(cfg, s, l) && (l.Reject? || l.Bug? || l.Serve?)
    ensures Flagging(Step(cfg, s, l))
  {
    PopsHead(cfg, s, l);
    FlaggingSame(s, Step(cfg, s, l));
  }

  lemma FlaggingTouch(s: Sys, t: Sys, i: nat)
    requires Flagging(s) && Touches(s, t, i) && t.flushed == s.flushed
    requires t.disk.volMeta == s.disk.volMeta && t.disk.durMeta == s.disk.durMeta
    requires PhaseFlags(s.headers, MetaFlags(s.disk.volMeta), MetaFlags(s.disk.durMeta), t.reqs[i].phase)
    ensures Flagging(t)
  {
    FlaggingSame(s, t);
  }

  lemma FlaggingRequestStep(cfg: Config, s: Sys, l: Label)
    requires Good(cfg, s) && Flagging(s) && Enabled(cfg, s, l) && (OfRead(l) || OfWrite(l))
    ensures Flagging(RequestStep(cfg, s, l))
  {
    if OfRead(l) {
      TouchesRead(cfg, s, l);
    } else {
      TouchesWrite(cfg, s, l);
    }
    FlaggingTouch(s, RequestStep(cfg, s, l), l.i);
  }

  lemma FlaggingFlushStep(cfg: Config, s: Sys, l: Label)
    requires Good(cfg, s) && Flagging(s) && Enabled(cfg, s, l) && OfFlush(l)
    ensures Flagging(FlushStep(cfg, s, l))
  {
    match l
    case FlushBlock(i, b) => FlaggingFlushBlock(s, i, b);
    case DataFlushDone(i, ok, accepted) => FlaggingDataFlushed(cfg, s, i, ok, accepted);
    case MetaApply(i) => FlaggingApply(cfg, s, i);
    case MetaWriteDone(i, ok, accepted) => FlaggingMetaWritten(s, i, ok, accepted);
    case MetaSettle(i) => FlaggingSettle(cfg, s, i);
    case MetaFlushDone(i, ok) => FlaggingFlushed(cfg, s, i, ok);
  }

  lemma FlaggingRing(cfg: Config, s: Sys, l: Label)
    requires Good(cfg, s) && Flagging(s) && Enabled(cfg, s, l) && l.Ring?
    ensures Flagging(Step(cfg, s, l))
  {
    RingsOnly(cfg, s, l);
    FlaggingSame(s, Step(cfg, s, l));
  }

  lemma FlaggingDeviceStep(cfg: Config, s: Sys, l: Label)
    requires Good(cfg, s) && Flagging(s) && Enabled(cfg, s, l) && OfDevice(l)
    ensures Flagging(DeviceStep(cfg, s, l))
  {
    match l
    case Destage(b) => FlaggingSame(s, DeviceStep(cfg, s, l));
    case DestageMeta => FlaggingMeta(s, DeviceStep(cfg, s, l), |s.reqs|);
    case Crash => FlaggingCrash(cfg, s);
  }

  lemma FlaggingStep(cfg: Config, s: Sys, l: Label)
    requires Good(cfg, s) && Fetches(cfg, s) && Flagging(s) && Enabled(cfg, s, l)
    ensures Flagging(Step(cfg, s, l))
  {
    if OfFetch(l) {
      FlaggingFetchStep(cfg, s, l);
    } else if l.Submit? {
      FlaggingSubmit(cfg, s, l.c, l.req);
    } else if l.Reject? || l.Bug? || l.Serve? {
      FlaggingPollStep(cfg, s, l);
    } else if OfRead(l) || OfWrite(l) {
      FlaggingRequestStep(cfg, s, l);
    } else if OfFlush(l) {
      FlaggingFlushStep(cfg, s, l);
    } else if l.Ring? {
      FlaggingRing(cfg, s, l);
    } else if OfDevice(l) {
      FlaggingDeviceStep(cfg, s, l);
    }
  }
}
