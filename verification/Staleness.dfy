/**
 When a crash can expose base blocks that were never written: only with a volatile cache, because
 a flush makes the headers of all stripes durable but the data of its own range only.
 */
module Staleness {
  import opened Types
  import opened Protocol
  import opened Frames
  import opened Order
  import opened Ownership
  import opened Refinement
  import opened Headers

  /** Blocks past the image are never junk. */
  ghost predicate CleanTail(cfg: Config, disk: Disk)
    requires DiskShape(cfg, disk)
  {
    forall b: nat | |cfg.image| <= b < cfg.blocks :: disk.vol[b].ver >= 0 && disk.dur[b].ver >= 0
  }

  /** Without a cache, what is stored is durable, and no visible block is junk. */
  ghost predicate CleanThrough(cfg: Config, status: seq<Status>, disk: Disk)
    requires ConfigOk(cfg) && |status| == MAX_STRIPES && DiskShape(cfg, disk)
  {
    cfg.writeThrough ==>
      && disk.vol == disk.dur && disk.volMeta == disk.durMeta
      && forall b: nat | b < cfg.blocks && Backed(cfg, status, b) :: disk.vol[b].ver >= 0
  }

  /** With flushes ignored, metadata is never written. */
  ghost predicate CleanMeta(cfg: Config, disk: Disk, reqs: seq<Io>) {
    cfg.noSync ==>
      && disk.volMeta.None? && disk.durMeta.None?
      && forall i | 0 <= i < |reqs| :: !Syncs(reqs[i].phase)
  }

  ghost predicate Clean(cfg: Config, s: Sys)
    requires Shape(cfg, s)
  {
    CleanTail(cfg, s.disk) && CleanThrough(cfg, s.status, s.disk) && CleanMeta(cfg, s.disk, s.reqs)
  }

  lemma CleanApply(cfg: Config, s: Sys, c: nat, k: nat, b: nat, junk: Data)
    requires Shape(cfg, s) && Mirrors(cfg, s) && Clean(cfg, s)
    requires InSlot(s, c, k) && s.chans[c].slots[k].Copying? && b in s.chans[c].slots[k].pending
    requires Shape(cfg, FetchApplyStep(cfg, s, c, k, b, junk))
    ensures Clean(cfg, FetchApplyStep(cfg, s, c, k, b, junk))
  {
    assert SlotCopies(cfg, s.disk.vol, s.chans[c].slots[k]);
  }

  lemma CleanDone(cfg: Config, s: Sys, c: nat, k: nat)
    requires Shape(cfg, s) && Mirrors(cfg, s) && Clean(cfg, s)
    requires InSlot(s, c, k) && s.chans[c].slots[k].Copying? && s.chans[c].slots[k].pending == {}
    requires Shape(cfg, FetchDoneStep(s, c, k))
    ensures Clean(cfg, FetchDoneStep(s, c, k))
  {
    var slot := s.chans[c].slots[k];
    assert SlotCopies(cfg, s.disk.vol, slot);
    forall b: nat | b < cfg.blocks && Stripe(cfg, b) == slot.stripe
      ensures s.disk.vol[b].ver >= 0
    {
      assert b in StripeBlocks(cfg, slot.stripe);
    }
  }

  lemma CleanStatus(cfg: Config, status: seq<Status>, status': seq<Status>, disk: Disk)
    requires ConfigOk(cfg) && |status| == |status'| == MAX_STRIPES && DiskShape(cfg, disk)
    requires CleanThrough(cfg, status, disk)
    requires forall x | 0 <= x < |status| :: status'[x] == Fetched ==> status[x] == Fetched
    ensures CleanThrough(cfg, status', disk)
  {
  }

  lemma CleanFetchStep(cfg: Config, s: Sys, l: Label)
    requires Good(cfg, s) && Fetches(cfg, s) && Mirrors(cfg, s) && Clean(cfg, s) && Enabled(cfg, s, l) && OfFetch(l)
    requires Shape(cfg, Step(cfg, s, l))
    ensures Clean(cfg, Step(cfg, s, l))
  {
    if l.FetchApply? {
      CleanApply(cfg, s, l.c, l.k, l.b, l.junk);
    } else if l.FetchDone? {
      CleanDone(cfg, s, l.c, l.k);
    } else {
      AdvancesSlot(cfg, s, l);
      CleanStatus(cfg, s.status, Step(cfg, s, l).status, s.disk);
    }
  }

  lemma CleanSubmit(cfg: Config, s: Sys, c: nat, req: Request)
    requires Shape(cfg, s) && Clean(cfg, s) && c < |s.chans| && RequestOk(cfg, req)
    requires Shape(cfg, SubmitStep(cfg, s, c, req))
    ensures Clean(cfg, SubmitStep(cfg, s, c, req))
  {
    CleanStatus(cfg, s.status, SubmitStep(cfg, s, c, req).status, s.disk);
  }

  lemma CleanPollStep(cfg: Config, s: Sys, l: Label)
    requires Good(cfg, s) && Clean(cfg, s) && Enabled(cfg, s, l) && (l.Reject? || l.Bug? || l.Serve?)
    requires Shape(cfg, Step(cfg, s, l))
    ensures Clean(cfg, Step(cfg, s, l))
  {
    PopsHead(cfg, s, l);
  }

  lemma CleanReadStep(cfg: Config, s: Sys, l: Label)
    requires Good(cfg, s) && Clean(cfg, s) && Enabled(cfg, s, l) && OfRead(l)
    requires Shape(cfg, RequestStep(cfg, s, l))
    ensures Clean(cfg, RequestStep(cfg, s, l))
  {
    TouchesRead(cfg, s, l);
    ReadStays(cfg, s, l);
  }

  lemma CleanWriteStep(cfg: Config, s: Sys, l: Label)
    requires Good(cfg, s) && Clean(cfg, s) && Enabled(cfg, s, l) && OfWrite(l)
    requires Shape(cfg, RequestStep(cfg, s, l))
    ensures Clean(cfg, RequestStep(cfg, s, l))
  {
    TouchesWrite(cfg, s, l);
  }

  lemma CleanFlushStep(cfg: Config, s: Sys, l: Label)
    requires Good(cfg, s) && Clean(cfg, s) && Enabled(cfg, s, l) && OfFlush(l)
    requires Shape(cfg, FlushStep(cfg, s, l))
    ensures Clean(cfg, FlushStep(cfg, s, l))
  {
    TouchesFlush(cfg, s, l);
    assert cfg.noSync ==> !Syncs(s.reqs[l.i].phase);
  }

  lemma CleanCrash(cfg: Config, s: Sys)
    requires Shape(cfg, s) && Flagging(s) && Clean(cfg, s) && Enabled(cfg, s, Crash)
    requires Shape(cfg, DeviceStep(cfg, s, Crash))
    ensures Clean(cfg, DeviceStep(cfg, s, Crash))
  {
    Reloads(cfg, s.disk.durMeta);
    var t := DeviceStep(cfg, s, Crash);
    forall b: nat | b < cfg.blocks && Backed(cfg, t.status, b)
      ensures Backed(cfg, s.status, b)
    {
      if b < |cfg.image| {
        assert MetaFlags(s.disk.durMeta)[Stripe(cfg, b)];
      }
    }
  }

  lemma CleanStep(cfg: Config, s: Sys, l: Label)
    requires Good(cfg, s) && Fetches(cfg, s) && Mirrors(cfg, s) && Flagging(s) && Clean(cfg, s) && Enabled(cfg, s, l)
    ensures Good(cfg, Step(cfg, s, l)) && Clean(cfg, Step(cfg, s, l))
  {
    GoodStep(cfg, s, l);
    if OfFetch(l) {
      CleanFetchStep(cfg, s, l);
    } else if l.Submit? {
      CleanSubmit(cfg, s, l.c, l.req);
    } else if l.Reject? || l.Bug? || l.Serve? {
      CleanPollStep(cfg, s, l);
    } else if OfRead(l) {
      CleanReadStep(cfg, s, l);
    } else if OfWrite(l) {
      CleanWriteStep(cfg, s, l);
    } else if OfFlush(l) {
      CleanFlushStep(cfg, s, l);
    } else if l.Ring? {
      RingsOnly(cfg, s, l);
    } else if l.Crash? {
      CleanCrash(cfg, s);
    }
  }

  // ---------------------------------------------------------------- only stripes that fit are ever copied

  ghost predicate Fitting(cfg: Config, status: seq<Status>, chans: seq<Chan>) {
    && (forall x: nat | x < |status| && status[x] == Fetched :: Fits(cfg, x))
    && (forall c, k | 0 <= c < |chans| && 0 <= k < |chans[c].slots| && chans[c].slots[k].Copying? ::
          Fits(cfg, chans[c].slots[k].stripe))
  }

  lemma FittingFetchStep(cfg: Config, s: Sys, l: Label)
    requires Good(cfg, s) && Fitting(cfg, s.status, s.chans) && Enabled(cfg, s, l) && OfFetch(l)
    ensures Fitting(cfg, Step(cfg, s, l).status, Step(cfg, s, l).chans)
  {
    AdvancesSlot(cfg, s, l);
  }

  lemma FittingTouch(cfg: Config, s: Sys, t: Sys, i: nat)
    requires Fitting(cfg, s.status, s.chans) && Touches(s, t, i)
    ensures Fitting(cfg, t.status, t.chans)
  {
  }

  lemma FittingCrash(cfg: Config, s: Sys)
    requires Shape(cfg, s) && Flagging(s) && Fitting(cfg, s.status, s.chans) && Enabled(cfg, s, Crash)
    ensures Fitting(cfg, DeviceStep(cfg, s, Crash).status, DeviceStep(cfg, s, Crash).chans)
  {
    Reloads(cfg, s.disk.durMeta);
    forall x: nat | x < MAX_STRIPES && DeviceStep(cfg, s, Crash).status[x] == Fetched
      ensures Fits(cfg, x)
    {
      assert MetaFlags(s.disk.durMeta)[x];
    }
  }

  lemma FittingPop(cfg: Config, s: Sys, t: Sys, c: nat)
    requires Fitting(cfg, s.status, s.chans) && Pops(s, t, c)
    ensures Fitting(cfg, t.status, t.chans)
  {
  }

  lemma FittingRing(cfg: Config, s: Sys, t: Sys)
    requires Fitting(cfg, s.status, s.chans) && Rings(s, t)
    ensures Fitting(cfg, t.status, t.chans)
  {
  }

  lemma FittingSubmit(cfg: Config, s: Sys, c: nat, req: Request)
    requires Shape(cfg, s) && Fitting(cfg, s.status, s.chans) && c < |s.chans| && RequestOk(cfg, req)
    ensures Fitting(cfg, SubmitStep(cfg, s, c, req).status, SubmitStep(cfg, s, c, req).chans)
  {
  }

  lemma FittingStep(cfg: Config, s: Sys, l: Label)
    requires Good(cfg, s) && Flagging(s) && Fitting(cfg, s.status, s.chans) && Enabled(cfg, s, l)
    ensures Fitting(cfg, Step(cfg, s, l).status, Step(cfg, s, l).chans)
  {
    if OfFetch(l) {
      FittingFetchStep(cfg, s, l);
    } else if l.Reject? || l.Bug? || l.Serve? {
      PopsHead(cfg, s, l);
      FittingPop(cfg, s, Step(cfg, s, l), l.c);
    } else if l.Submit? {
      FittingSubmit(cfg, s, l.c, l.req);
    } else if OfRead(l) {
      TouchesRead(cfg, s, l);
      FittingTouch(cfg, s, RequestStep(cfg, s, l), l.i);
    } else if OfWrite(l) {
      TouchesWrite(cfg, s, l);
      FittingTouch(cfg, s, RequestStep(cfg, s, l), l.i);
    } else if OfFlush(l) {
      TouchesFlush(cfg, s, l);
      FittingTouch(cfg, s, FlushStep(cfg, s, l), l.i);
    } else if l.Ring? {
      RingsOnly(cfg, s, l);
      FittingRing(cfg, s, Step(cfg, s, l));
    } else if l.Crash? {
      FittingCrash(cfg, s);
    }
  }

  // ---------------------------------------------------------------- recovery

  /** The base device has no cache, or flushes are ignored, or there is no image, or no stripe can be copied. */
  predicate NeverStale(cfg: Config) {
    cfg.writeThrough || cfg.noSync || cfg.image == [] || !Fits(cfg, 0)
  }

  lemma RecoversClean(cfg: Config, s: Sys, b: nat)
    requires Shape(cfg, s) && Flagging(s) && Clean(cfg, s) && Fitting(cfg, s.status, s.chans) && NeverStale(cfg)
    requires b < cfg.blocks
    ensures Recovered(cfg, s.disk, b).ver >= 0
  {
    if b < |cfg.image| && Flagged(s.disk.durMeta, Stripe(cfg, b)) {
      assert MetaFlags(s.disk.durMeta)[Stripe(cfg, b)];
      assert Backed(cfg, s.status, b) && Fits(cfg, Stripe(cfg, b));
      FirstFits(cfg, Stripe(cfg, b));
    }
  }

  lemma FirstFits(cfg: Config, x: nat)
    requires Fits(cfg, x)
    ensures Fits(cfg, 0)
  {
    assert (x + 1) * cfg.stripeBlocks == x * cfg.stripeBlocks + cfg.stripeBlocks;
  }
}
