/**
 Where things are put: copies stay within the image, and only blocks already on the base device are read
 or written there. This is all that durability needs.
 */
module Placement {
  import opened Types
  import opened Protocol
  import opened Frames
  import opened Order
  import opened Ownership
  import opened Refinement

  /** Block `t` past the image shares a stripe with block `b` of the image. */
  ghost predicate Adjoins(cfg: Config, b: nat, t: nat)
    requires 0 < cfg.stripeBlocks
  {
    b < |cfg.image| <= t < cfg.blocks && Stripe(cfg, b) == Stripe(cfg, t)
  }

  /** No stripe with blocks on both sides of the end of the image can be copied. */
  ghost predicate TailApart(cfg: Config)
    requires 0 < cfg.stripeBlocks
  {
    forall b: nat, t: nat | Adjoins(cfg, b, t) :: !Fits(cfg, Stripe(cfg, b))
  }

  lemma ExactKeepsApart(cfg: Config)
    requires 0 < cfg.stripeBlocks && CopiesExact(cfg)
    ensures TailApart(cfg)
  {
    forall b: nat, t: nat | Adjoins(cfg, b, t)
      ensures !Fits(cfg, Stripe(cfg, b))
    {
      assert Straddles(cfg, b, t);
    }
  }

  ghost predicate SlotInside(cfg: Config, slot: Slot)
    requires 0 < cfg.stripeBlocks
  {
    slot.Copying? ==> forall b | b in StripeBlocks(cfg, slot.stripe) :: b < |cfg.image|
  }

  /** Every stripe being copied lies within the image. */
  ghost predicate Inside(cfg: Config, chans: seq<Chan>)
    requires 0 < cfg.stripeBlocks
  {
    forall c, k | 0 <= c < |chans| && 0 <= k < |chans[c].slots| :: SlotInside(cfg, chans[c].slots[k])
  }

  ghost predicate PhasePlaced(cfg: Config, status: seq<Status>, phase: Phase)
    requires ConfigOk(cfg) && |status| == MAX_STRIPES
  {
    phase.Writing? || phase.BaseRead? ==> AllBacked(cfg, status, phase.pending)
  }

  /** Every block still to be read or written on the base device is served from there. */
  ghost predicate AllPlaced(cfg: Config, status: seq<Status>, reqs: seq<Io>)
    requires ConfigOk(cfg) && |status| == MAX_STRIPES
  {
    forall i | 0 <= i < |reqs| :: PhasePlaced(cfg, status, reqs[i].phase)
  }

  ghost predicate Placed(cfg: Config, s: Sys)
    requires Shape(cfg, s)
  {
    Inside(cfg, s.chans) && AllPlaced(cfg, s.status, s.reqs)
  }

  // ---------------------------------------------------------------- every step

  lemma PlacedLater(cfg: Config, status: seq<Status>, status': seq<Status>, reqs: seq<Io>)
    requires ConfigOk(cfg) && |status| == MAX_STRIPES && AllPlaced(cfg, status, reqs) && Keeps(status, status')
    ensures AllPlaced(cfg, status', reqs)
  {
    forall i | 0 <= i < |reqs|
      ensures PhasePlaced(cfg, status', reqs[i].phase)
    {
      assert PhasePlaced(cfg, status, reqs[i].phase);
    }
  }

  lemma InsideUpdate(cfg: Config, chans: seq<Chan>, c: nat, k: nat, ch: Chan)
    requires 0 < cfg.stripeBlocks && Inside(cfg, chans)
    requires c < |chans| && k < |chans[c].slots| == |ch.slots| && ch.slots == chans[c].slots[k := ch.slots[k]]
    requires SlotInside(cfg, ch.slots[k])
    ensures Inside(cfg, chans[c := ch])
  {
  }

  /** A stripe that somebody waits for and that the base device accepts lies within the image. */
  lemma FitsInside(cfg: Config, s: Sys, c: nat, k: nat)
    requires Shape(cfg, s) && Fetches(cfg, s) && TailApart(cfg)
    requires InSlot(s, c, k) && s.chans[c].slots[k].Reading? && Fits(cfg, s.chans[c].slots[k].stripe)
    ensures forall a | a in StripeBlocks(cfg, s.chans[c].slots[k].stripe) :: a < |cfg.image|
  {
    var b := SlotOnImage(cfg, s, c, k);
    forall a | a in StripeBlocks(cfg, s.chans[c].slots[k].stripe)
      ensures a < |cfg.image|
    {
      assert Adjoins(cfg, b, a) || a < |cfg.image|;
    }
  }

  lemma PlacedRead(cfg: Config, s: Sys, c: nat, k: nat, ok: bool)
    requires Shape(cfg, s) && Fetches(cfg, s) && Placed(cfg, s) && TailApart(cfg)
    requires InSlot(s, c, k) && s.chans[c].slots[k].Reading? && (ok ==> Fits(cfg, s.chans[c].slots[k].stripe))
    requires Shape(cfg, FetchReadStep(cfg, s, c, k, ok))
    ensures Placed(cfg, FetchReadStep(cfg, s, c, k, ok))
  {
    var t := FetchReadStep(cfg, s, c, k, ok);
    SlotInflight(s.status, s.chans, c, k);
    if ok {
      FitsInside(cfg, s, c, k);
    }
    InsideUpdate(cfg, s.chans, c, k, t.chans[c]);
    PlacedLater(cfg, s.status, t.status, s.reqs);
  }

  lemma PlacedFetchStep(cfg: Config, s: Sys, l: Label)
    requires Good(cfg, s) && Fetches(cfg, s) && Placed(cfg, s) && TailApart(cfg) && Enabled(cfg, s, l) && OfFetch(l)
    requires Shape(cfg, Step(cfg, s, l))
    ensures Placed(cfg, Step(cfg, s, l))
  {
    match l
    case StartFetch(c, k) => InsideUpdate(cfg, s.chans, c, k, StartFetchStep(s, c, k).chans[c]);
    case FetchRead(c, k, readOk, accepted) => PlacedRead(cfg, s, c, k, readOk && accepted);
    case FetchApply(c, k, b, junk) =>
      assert SlotInside(cfg, s.chans[c].slots[k]);
      InsideUpdate(cfg, s.chans, c, k, FetchApplyStep(cfg, s, c, k, b, junk).chans[c]);
    case FetchDone(c, k) => PlacedDone(cfg, s, c, k);
  }

  lemma PlacedDone(cfg: Config, s: Sys, c: nat, k: nat)
    requires Shape(cfg, s) && Placed(cfg, s) && InSlot(s, c, k) && s.chans[c].slots[k].Copying?
    requires Shape(cfg, FetchDoneStep(s, c, k))
    ensures Placed(cfg, FetchDoneStep(s, c, k))
  {
    var t := FetchDoneStep(s, c, k);
    InsideUpdate(cfg, s.chans, c, k, t.chans[c]);
    PlacedLater(cfg, s.status, t.status, s.reqs);
  }

  lemma PlacedSubmit(cfg: Config, s: Sys, c: nat, req: Request)
    requires Shape(cfg, s) && Placed(cfg, s) && c < |s.chans| && RequestOk(cfg, req)
    requires Shape(cfg, SubmitStep(cfg, s, c, req))
    ensures Placed(cfg, SubmitStep(cfg, s, c, req))
  {
    PlacedLater(cfg, s.status, SubmitStep(cfg, s, c, req).status, s.reqs);
  }

  lemma PlacedPop(cfg: Config, s: Sys, t: Sys, c: nat)
    requires Shape(cfg, s) && Shape(cfg, t) && Placed(cfg, s) && Pops(s, t, c)
    requires PhasePlaced(cfg, s.status, t.reqs[s.chans[c].io[0]].phase)
    ensures Placed(cfg, t)
  {
  }

  lemma PlacedPollStep(cfg: Config, s: Sys, l: Label)
    requires Good(cfg, s) && Placed(cfg, s) && Enabled(cfg, s, l) && (l.Reject? || l.Bug? || l.Serve?)
    requires Shape(cfg, Step(cfg, s, l))
    ensures Placed(cfg, Step(cfg, s, l))
  {
    PopsHead(cfg, s, l);
    if l.Serve? {
      ServePlaced(cfg, s, l.c, l.accepted);
    }
    PlacedPop(cfg, s, Step(cfg, s, l), l.c);
  }

  lemma ServePlaced(cfg: Config, s: Sys, c: nat, accepted: bool)
    requires Good(cfg, s) && HeadIs(cfg, s, c, Servable)
    ensures var i := s.chans[c].io[0];
            && i < |s.reqs| == |ServeStep(cfg, s, c, accepted).reqs|
            && PhasePlaced(cfg, s.status, ServeStep(cfg, s, c, accepted).reqs[i].phase)
  {
    var i := s.chans[c].io[0];
    assert ChanOrder(s.chans[c], c, s.reqs) && IoShape(cfg, s.reqs[i], |s.chans|);
    if s.reqs[i].req.kind == Write {
      RangeBacked(cfg, s.status, s.reqs[i].req);
    }
  }

  lemma PlacedTouch(cfg: Config, s: Sys, t: Sys, i: nat)
    requires Shape(cfg, s) && Shape(cfg, t) && Placed(cfg, s) && Touches(s, t, i)
    requires PhasePlaced(cfg, s.status, t.reqs[i].phase)
    ensures Placed(cfg, t)
  {
  }

  lemma GetBufPlaced(cfg: Config, s: Sys, i: nat, ok: bool, accepted: bool)
    requires Shape(cfg, s) && i < |s.reqs| && s.reqs[i].phase.Buffering?
    ensures PhasePlaced(cfg, s.status, GetBufStep(cfg, s, i, ok, accepted).reqs[i].phase)
  {
    var req := s.reqs[i].req;
    assert IoShape(cfg, s.reqs[i], |s.chans|);
    if Backed(cfg, s.status, req.start) {
      RangeBacked(cfg, s.status, req);
    }
  }

  lemma PlacedReadStep(cfg: Config, s: Sys, l: Label)
    requires Good(cfg, s) && Placed(cfg, s) && Enabled(cfg, s, l) && OfRead(l)
    requires Shape(cfg, RequestStep(cfg, s, l))
    ensures Placed(cfg, RequestStep(cfg, s, l))
  {
    TouchesRead(cfg, s, l);
    assert PhasePlaced(cfg, s.status, s.reqs[l.i].phase);
    if l.GetBuf? {
      GetBufPlaced(cfg, s, l.i, l.ok, l.accepted);
    }
    PlacedTouch(cfg, s, RequestStep(cfg, s, l), l.i);
  }

  lemma PlacedWriteStep(cfg: Config, s: Sys, l: Label)
    requires Good(cfg, s) && Placed(cfg, s) && Enabled(cfg, s, l) && OfWrite(l)
    requires Shape(cfg, RequestStep(cfg, s, l))
    ensures Placed(cfg, RequestStep(cfg, s, l))
  {
    TouchesWrite(cfg, s, l);
    assert PhasePlaced(cfg, s.status, s.reqs[l.i].phase);
    PlacedTouch(cfg, s, RequestStep(cfg, s, l), l.i);
  }

  lemma PlacedFlushStep(cfg: Config, s: Sys, l: Label)
    requires Good(cfg, s) && Placed(cfg, s) && Enabled(cfg, s, l) && OfFlush(l)
    requires Shape(cfg, FlushStep(cfg, s, l))
    ensures Placed(cfg, FlushStep(cfg, s, l))
  {
    TouchesFlush(cfg, s, l);
    PlacedTouch(cfg, s, FlushStep(cfg, s, l), l.i);
  }

  /** Every step keeps copies within the image and requests on blocks that are there. */
  lemma PlacedStep(cfg: Config, s: Sys, l: Label)
    requires Good(cfg, s) && Fetches(cfg, s) && Placed(cfg, s) && TailApart(cfg) && Enabled(cfg, s, l)
    ensures Good(cfg, Step(cfg, s, l)) && Placed(cfg, Step(cfg, s, l))
  {
    GoodStep(cfg, s, l);
    if OfFetch(l) {
      PlacedFetchStep(cfg, s, l);
    } else if l.Submit? {
      PlacedSubmit(cfg, s, l.c, l.req);
    } else if l.Reject? || l.Bug? || l.Serve? {
      PlacedPollStep(cfg, s, l);
    } else if OfRead(l) {
      PlacedReadStep(cfg, s, l);
    } else if OfWrite(l) {
      PlacedWriteStep(cfg, s, l);
    } else if OfFlush(l) {
      PlacedFlushStep(cfg, s, l);
    } else if l.Ring? {
      RingsOnly(cfg, s, l);
    }
  }
}
