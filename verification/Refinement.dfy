/**
 The bdev refines a plain disk onto which the image has already been copied: the disk only changes
 when a block write of a user takes effect, and every read returns what the plain disk held at some
 moment between dispatch and completion.
 */
module Refinement {
  import opened Types
  import opened Protocol
  import opened Frames
  import opened Order
  import opened Ownership

  /** The plain disk: block `b` after the first `n` block writes, in a session that began after `epoch` of them. */
  function Plain(start: seq<Cell>, log: seq<Entry>, epoch: nat, n: nat, b: nat): Cell
    requires epoch <= n <= |log| && b < |start|
    decreases n
  {
    if n == epoch then start[b]
    else if log[n - 1].block == b then Cell(log[n - 1].data, n)
    else Plain(start, log, epoch, n - 1, b)
  }

  /** Block `t`, which the image file does not hold or holds in part, shares a stripe with block `b` of the image. */
  ghost predicate Straddles(cfg: Config, b: nat, t: nat)
    requires 0 < cfg.stripeBlocks
  {
    b < |cfg.image| && t < cfg.blocks && !Whole(cfg, t) && Stripe(cfg, b) == Stripe(cfg, t)
  }

  /** No stripe that straddles the end of the image file can be copied. */
  ghost predicate CopiesExact(cfg: Config)
    requires 0 < cfg.stripeBlocks
  {
    forall b: nat, t: nat | Straddles(cfg, b, t) :: !Fits(cfg, Stripe(cfg, b))
  }

  /** No stripe that straddles the end of the image file can be read uncopied. */
  ghost predicate ReadsExact(cfg: Config)
    requires 0 < cfg.stripeBlocks
  {
    cfg.copyOnRead || forall b: nat, t: nat :: !Straddles(cfg, b, t)
  }

  /** No block outside the image file is ever taken for one of the image. */
  ghost predicate Harmless(cfg: Config)
    requires 0 < cfg.stripeBlocks
  {
    CopiesExact(cfg) && ReadsExact(cfg)
  }

  lemma {:induction false} PlainExtends(start: seq<Cell>, log: seq<Entry>, log': seq<Entry>, epoch: nat, n: nat, b: nat)
    requires epoch <= n <= |log| && b < |start| && log <= log'
    ensures Plain(start, log', epoch, n, b) == Plain(start, log, epoch, n, b)
    decreases n
  {
    if n == epoch {
    } else {
      PlainExtends(start, log, log', epoch, n - 1, b);
    }
  }

  // ---------------------------------------------------------------- invariant

  ghost predicate Mirrored(cfg: Config, status: seq<Status>, vol: seq<Cell>, hist: Hist)
    requires ConfigOk(cfg) && |status| == MAX_STRIPES && |vol| == cfg.blocks && HistShape(cfg, hist)
  {
    forall b: nat | b < cfg.blocks ::
      Logical(cfg, status, vol, b) == Plain(hist.start, hist.log, hist.epoch, |hist.log|, b)
  }

  /** A stripe being copied lies within the image, and the blocks already copied hold the image. */
  ghost predicate SlotCopies(cfg: Config, vol: seq<Cell>, slot: Slot)
    requires ConfigOk(cfg) && |vol| == cfg.blocks
  {
    slot.Copying? ==>
      forall b | b in StripeBlocks(cfg, slot.stripe) ::
        Whole(cfg, b) && (b !in slot.pending ==> vol[b] == Cell(cfg.image[b], 0))
  }

  ghost predicate Copies(cfg: Config, vol: seq<Cell>, chans: seq<Chan>)
    requires ConfigOk(cfg) && |vol| == cfg.blocks
  {
    forall c, k | 0 <= c < |chans| && 0 <= k < |chans[c].slots| :: SlotCopies(cfg, vol, chans[c].slots[k])
  }

  /** What a read saw in a block is what the plain disk held after `at` block writes, with `at` in the window. */
  ghost predicate Saw(hist: Hist, b: nat, snap: Snap, lo: nat, hi: nat) {
    && hist.epoch <= lo <= snap.at <= hi <= |hist.log| && b < |hist.start|
    && Plain(hist.start, hist.log, hist.epoch, snap.at, b).data == snap.data
  }

  ghost predicate AllBacked(cfg: Config, status: seq<Status>, blocks: set<nat>)
    requires ConfigOk(cfg) && |status| == MAX_STRIPES
  {
    forall b | b in blocks :: b < cfg.blocks && Backed(cfg, status, b)
  }

  ghost predicate PhaseMirrors(cfg: Config, status: seq<Status>, hist: Hist, req: Request, phase: Phase)
    requires ConfigOk(cfg) && |status| == MAX_STRIPES && req.start < cfg.blocks && HistShape(cfg, hist)
  {
    match phase
    case Buffering(born) =>
      && hist.epoch <= born <= |hist.log|
      && (OnImage(cfg, req) && cfg.copyOnRead ==> status[Stripe(cfg, req.start)] == Fetched)
    case BaseRead(born, pending, got) =>
      && hist.epoch <= born <= |hist.log|
      && AllBacked(cfg, status, pending)
      && (forall b | b in got :: Saw(hist, b, got[b], born, |hist.log|))
    case ImageRead(born, at) =>
      && hist.epoch <= born <= at <= |hist.log|
      && (ReadsExact(cfg) ==>
            forall b | b in Range(req) :: Whole(cfg, b) && Saw(hist, b, Snap(cfg.image[b], at), born, at))
    case Writing(pending, _) => AllBacked(cfg, status, pending)
    case ReadOk(born, got, end) => ReadsExact(cfg) ==> forall b | b in got :: Saw(hist, b, got[b], born, end)
    case _ => true
  }

  ghost predicate IoMirrors(cfg: Config, status: seq<Status>, hist: Hist, reqs: seq<Io>)
    requires ConfigOk(cfg) && |status| == MAX_STRIPES && HistShape(cfg, hist)
  {
    forall i | 0 <= i < |reqs| ::
      reqs[i].req.start < cfg.blocks && PhaseMirrors(cfg, status, hist, reqs[i].req, reqs[i].phase)
  }

  ghost predicate Mirrors(cfg: Config, s: Sys)
    requires Shape(cfg, s)
  {
    && Mirrored(cfg, s.status, s.disk.vol, s.hist)
    && Copies(cfg, s.disk.vol, s.chans)
    && IoMirrors(cfg, s.status, s.hist, s.reqs)
  }

  // ---------------------------------------------------------------- what does not disturb it

  /** Fetched stripes stay fetched. */
  ghost predicate Keeps(status: seq<Status>, status': seq<Status>) {
    && |status| == |status'|
    && forall x | 0 <= x < |status| :: status[x] == Fetched ==> status'[x] == Fetched
  }

  /** The same session, with perhaps more block writes. */
  ghost predicate Continues(hist: Hist, hist': Hist) {
    hist'.start == hist.start && hist'.epoch == hist.epoch && hist.log <= hist'.log
  }

  lemma SawLater(hist: Hist, hist': Hist, b: nat, snap: Snap, lo: nat, hi: nat, hi': nat)
    requires Saw(hist, b, snap, lo, hi) && Continues(hist, hist') && hi <= hi' <= |hist'.log|
    ensures Saw(hist', b, snap, lo, hi')
  {
    PlainExtends(hist.start, hist.log, hist'.log, hist.epoch, snap.at, b);
  }

  lemma PhaseMirrorsLater(cfg: Config, status: seq<Status>, hist: Hist, status': seq<Status>, hist': Hist,
                          req: Request, phase: Phase)
    requires ConfigOk(cfg) && |status| == MAX_STRIPES && req.start < cfg.blocks && HistShape(cfg, hist)
    requires HistShape(cfg, hist')
    requires PhaseMirrors(cfg, status, hist, req, phase) && Keeps(status, status') && Continues(hist, hist')
    ensures PhaseMirrors(cfg, status', hist', req, phase)
  {
    match phase
    case BaseRead(born, pending, got) =>
      forall b | b in got
        ensures Saw(hist', b, got[b], born, |hist'.log|)
      {
        SawLater(hist, hist', b, got[b], born, |hist.log|, |hist'.log|);
      }
    case ImageRead(born, at) =>
      forall b | ReadsExact(cfg) && b in Range(req)
        ensures Whole(cfg, b) && Saw(hist', b, Snap(cfg.image[b], at), born, at)
      {
        SawLater(hist, hist', b, Snap(cfg.image[b], at), born, at, at);
      }
    case ReadOk(born, got, end) =>
      forall b | ReadsExact(cfg) && b in got
        ensures Saw(hist', b, got[b], born, end)
      {
        SawLater(hist, hist', b, got[b], born, end, end);
      }
    case _ =>
  }

  lemma IoMirrorsLater(cfg: Config, status: seq<Status>, hist: Hist, status': seq<Status>, hist': Hist, reqs: seq<Io>)
    requires ConfigOk(cfg) && |status| == MAX_STRIPES && HistShape(cfg, hist) && HistShape(cfg, hist')
    requires IoMirrors(cfg, status, hist, reqs) && Keeps(status, status') && Continues(hist, hist')
    ensures IoMirrors(cfg, status', hist', reqs)
  {
    forall i | 0 <= i < |reqs|
      ensures PhaseMirrors(cfg, status', hist', reqs[i].req, reqs[i].phase)
    {
      PhaseMirrorsLater(cfg, status, hist, status', hist', reqs[i].req, reqs[i].phase);
    }
  }

  lemma MirroredStatus(cfg: Config, status: seq<Status>, status': seq<Status>, vol: seq<Cell>, hist: Hist)
    requires ConfigOk(cfg) && |status| == |status'| == MAX_STRIPES && |vol| == cfg.blocks && HistShape(cfg, hist)
    requires Mirrored(cfg, status, vol, hist)
    requires forall x | 0 <= x < |status| :: status[x] == Fetched <==> status'[x] == Fetched
    ensures Mirrored(cfg, status', vol, hist)
  {
    forall b: nat | b < cfg.blocks
      ensures Logical(cfg, status', vol, b) == Logical(cfg, status, vol, b)
    {
    }
  }

  // ---------------------------------------------------------------- fetch steps

  /** A block of a stripe in flight reaches the base device: nobody can see it yet. */
  lemma MirroredCopy(cfg: Config, status: seq<Status>, vol: seq<Cell>, hist: Hist, b: nat, cell: Cell)
    requires ConfigOk(cfg) && |status| == MAX_STRIPES && |vol| == cfg.blocks && HistShape(cfg, hist)
    requires Mirrored(cfg, status, vol, hist) && b < cfg.blocks && !Backed(cfg, status, b)
    ensures Mirrored(cfg, status, vol[b := cell], hist)
  {
    forall a: nat | a < cfg.blocks
      ensures Logical(cfg, status, vol[b := cell], a) == Logical(cfg, status, vol, a)
    {
    }
  }

  /** A stripe whose blocks all hold the image becomes visible: nobody can tell. */
  lemma MirroredDone(cfg: Config, status: seq<Status>, vol: seq<Cell>, hist: Hist, x: nat)
    requires ConfigOk(cfg) && |status| == MAX_STRIPES && |vol| == cfg.blocks && HistShape(cfg, hist)
    requires Mirrored(cfg, status, vol, hist) && x < MAX_STRIPES && status[x] == Inflight
    requires SlotCopies(cfg, vol, Copying(x, {}))
    ensures Mirrored(cfg, status[x := Fetched], vol, hist)
  {
    var slot := Copying(x, {});
    forall b: nat | b < cfg.blocks
      ensures Logical(cfg, status[x := Fetched], vol, b) == Logical(cfg, status, vol, b)
    {
      if Stripe(cfg, b) == x {
        assert b in StripeBlocks(cfg, slot.stripe);
      }
    }
  }

  /** A stripe that the base device accepts whole, and that somebody waits for, lies within the image. */
  lemma InsideImage(cfg: Config, b: nat, x: nat)
    requires ConfigOk(cfg) && CopiesExact(cfg) && Fits(cfg, x) && b < |cfg.image| && Stripe(cfg, b) == x
    ensures forall a | a in StripeBlocks(cfg, x) :: Whole(cfg, a)
  {
    forall a | a in StripeBlocks(cfg, x)
      ensures Whole(cfg, a)
    {
      assert Straddles(cfg, b, a) || Whole(cfg, a);
    }
  }

  lemma CopiesUpdate(cfg: Config, vol: seq<Cell>, chans: seq<Chan>, c: nat, k: nat, ch: Chan)
    requires ConfigOk(cfg) && |vol| == cfg.blocks && Copies(cfg, vol, chans)
    requires c < |chans| && k < |chans[c].slots| == |ch.slots| && ch.slots == chans[c].slots[k := ch.slots[k]]
    requires SlotCopies(cfg, vol, ch.slots[k])
    ensures Copies(cfg, vol, chans[c := ch])
  {
  }

  /** Storing the image's own contents in a block disturbs no copy in progress. */
  lemma CopiesStore(cfg: Config, vol: seq<Cell>, chans: seq<Chan>, b: nat)
    requires ConfigOk(cfg) && |vol| == cfg.blocks && Copies(cfg, vol, chans) && b < |cfg.image|
    ensures Copies(cfg, vol[b := Cell(cfg.image[b], 0)], chans)
  {
    var vol' := vol[b := Cell(cfg.image[b], 0)];
    forall c, k | 0 <= c < |chans| && 0 <= k < |chans[c].slots|
      ensures SlotCopies(cfg, vol', chans[c].slots[k])
    {
      assert SlotCopies(cfg, vol, chans[c].slots[k]);
    }
  }

  /** The stripe of a busy slot contains a block of the image. */
  lemma SlotOnImage(cfg: Config, s: Sys, c: nat, k: nat) returns (b: nat)
    requires Shape(cfg, s) && Fetches(cfg, s) && InSlot(s, c, k) && !s.chans[c].slots[k].Free?
    ensures b < |cfg.image| && Stripe(cfg, b) == s.chans[c].slots[k].stripe
  {
    var ch, x := s.chans[c], s.chans[c].slots[k].stripe;
    HeldAt(ch.slots, k);
    assert Owned(ch, x) > 0;
    var j :| 0 <= j < |ch.io| && Waits(cfg, s.reqs, ch.io[j], x);
    b := s.reqs[ch.io[j]].req.start;
  }

  lemma MirrorsRead(cfg: Config, s: Sys, c: nat, k: nat, ok: bool)
    requires Shape(cfg, s) && Fetches(cfg, s) && Mirrors(cfg, s) && CopiesExact(cfg)
    requires InSlot(s, c, k) && s.chans[c].slots[k].Reading? && (ok ==> Fits(cfg, s.chans[c].slots[k].stripe))
    requires Shape(cfg, FetchReadStep(cfg, s, c, k, ok))
    ensures Mirrors(cfg, FetchReadStep(cfg, s, c, k, ok))
  {
    var x := s.chans[c].slots[k].stripe;
    var t := FetchReadStep(cfg, s, c, k, ok);
    SlotInflight(s.status, s.chans, c, k);
    if ok {
      var b := SlotOnImage(cfg, s, c, k);
      InsideImage(cfg, b, x);
    } else {
      MirroredStatus(cfg, s.status, t.status, s.disk.vol, s.hist);
      IoMirrorsLater(cfg, s.status, s.hist, t.status, s.hist, s.reqs);
    }
    CopiesUpdate(cfg, s.disk.vol, s.chans, c, k, t.chans[c]);
  }

  lemma MirrorsApply(cfg: Config, s: Sys, c: nat, k: nat, b: nat, junk: Data)
    requires Shape(cfg, s) && Fetches(cfg, s) && Mirrors(cfg, s)
    requires InSlot(s, c, k) && s.chans[c].slots[k].Copying? && b in s.chans[c].slots[k].pending
    requires Shape(cfg, FetchApplyStep(cfg, s, c, k, b, junk))
    ensures Mirrors(cfg, FetchApplyStep(cfg, s, c, k, b, junk))
  {
    var slot := s.chans[c].slots[k];
    var t := FetchApplyStep(cfg, s, c, k, b, junk);
    SlotInflight(s.status, s.chans, c, k);
    assert SlotCopies(cfg, s.disk.vol, slot) && b in StripeBlocks(cfg, slot.stripe);
    MirroredCopy(cfg, s.status, s.disk.vol, s.hist, b, Cell(cfg.image[b], 0));
    CopiesStore(cfg, s.disk.vol, s.chans, b);
    CopiesUpdate(cfg, t.disk.vol, s.chans, c, k, t.chans[c]);
  }

  lemma MirrorsDone(cfg: Config, s: Sys, c: nat, k: nat)
    requires Shape(cfg, s) && Fetches(cfg, s) && Mirrors(cfg, s)
    requires InSlot(s, c, k) && s.chans[c].slots[k].Copying? && s.chans[c].slots[k].pending == {}
    requires Shape(cfg, FetchDoneStep(s, c, k))
    ensures Mirrors(cfg, FetchDoneStep(s, c, k))
  {
    var t := FetchDoneStep(s, c, k);
    SlotInflight(s.status, s.chans, c, k);
    assert SlotCopies(cfg, s.disk.vol, s.chans[c].slots[k]);
    MirroredDone(cfg, s.status, s.disk.vol, s.hist, s.chans[c].slots[k].stripe);
    IoMirrorsLater(cfg, s.status, s.hist, t.status, s.hist, s.reqs);
    CopiesUpdate(cfg, s.disk.vol, s.chans, c, k, t.chans[c]);
  }

  // ---------------------------------------------------------------- requests

  /** A request being dispatched to the base device has all its blocks there. */
  lemma RangeBacked(cfg: Config, status: seq<Status>, req: Request)
    requires ConfigOk(cfg) && |status| == MAX_STRIPES && RequestOk(cfg, req) && !Spans(cfg, req)
    requires Backed(cfg, status, req.start)
    ensures AllBacked(cfg, status, Range(req))
  {
    forall b | b in Range(req)
      ensures b < cfg.blocks && Backed(cfg, status, b)
    {
      OneStripe(cfg, req, b);
    }
  }

  lemma MirrorsPop(cfg: Config, s: Sys, t: Sys, c: nat)
    requires Shape(cfg, s) && Shape(cfg, t) && Mirrors(cfg, s) && Pops(s, t, c)
    requires var i := s.chans[c].io[0]; PhaseMirrors(cfg, s.status, s.hist, s.reqs[i].req, t.reqs[i].phase)
    ensures Mirrors(cfg, t)
  {
    IoMirrorsLater(cfg, s.status, s.hist, t.status, t.hist, s.reqs);
    PhaseMirrorsLater(cfg, s.status, s.hist, t.status, t.hist,
                      s.reqs[s.chans[c].io[0]].req, t.reqs[s.chans[c].io[0]].phase);
    forall b: nat | b < cfg.blocks
      ensures Logical(cfg, t.status, t.disk.vol, b) == Plain(t.hist.start, t.hist.log, t.hist.epoch, |t.hist.log|, b)
    {
      assert Logical(cfg, s.status, s.disk.vol, b) == Plain(s.hist.start, s.hist.log, s.hist.epoch, |s.hist.log|, b);
    }
  }

  lemma MirrorsServe(cfg: Config, s: Sys, c: nat, accepted: bool)
    requires Good(cfg, s) && Mirrors(cfg, s) && HeadIs(cfg, s, c, Servable)
    requires Shape(cfg, ServeStep(cfg, s, c, accepted)) && Pops(s, ServeStep(cfg, s, c, accepted), c)
    ensures Mirrors(cfg, ServeStep(cfg, s, c, accepted))
  {
    var i := s.chans[c].io[0];
    var req := s.reqs[i].req;
    assert ChanOrder(s.chans[c], c, s.reqs) && IoShape(cfg, s.reqs[i], |s.chans|);
    if req.kind == Write {
      RangeBacked(cfg, s.status, req);
    }
    MirrorsPop(cfg, s, ServeStep(cfg, s, c, accepted), c);
  }

  /** A request in flight advances without touching the disk. */
  lemma MirrorsTouch(cfg: Config, s: Sys, t: Sys, i: nat)
    requires Shape(cfg, s) && Shape(cfg, t) && Mirrors(cfg, s) && Touches(s, t, i)
    requires t.disk.vol == s.disk.vol && t.hist.log == s.hist.log && Continues(s.hist, t.hist)
    requires PhaseMirrors(cfg, s.status, s.hist, s.reqs[i].req, t.reqs[i].phase)
    ensures Mirrors(cfg, t)
  {
    IoMirrorsLater(cfg, s.status, s.hist, t.status, t.hist, s.reqs);
    PhaseMirrorsLater(cfg, s.status, s.hist, t.status, t.hist, s.reqs[i].req, t.reqs[i].phase);
    assert Mirrored(cfg, s.status, s.disk.vol, t.hist);
  }

  /** Blocks not on the base device are read from the image, which is what the plain disk holds. */
  lemma ImageMirrors(cfg: Config, s: Sys, i: nat)
    requires Shape(cfg, s) && Mirrors(cfg, s) && i < |s.reqs| && s.reqs[i].phase.Buffering?
    requires !Backed(cfg, s.status, s.reqs[i].req.start)
    ensures PhaseMirrors(cfg, s.status, s.hist, s.reqs[i].req, ImageRead(s.reqs[i].phase.born, |s.hist.log|))
  {
    var req := s.reqs[i].req;
    assert IoShape(cfg, s.reqs[i], |s.chans|) && PhaseMirrors(cfg, s.status, s.hist, req, s.reqs[i].phase);
    forall b | ReadsExact(cfg) && b in Range(req)
      ensures Whole(cfg, b) && Saw(s.hist, b, Snap(cfg.image[b], |s.hist.log|), s.reqs[i].phase.born, |s.hist.log|)
    {
      OneStripe(cfg, req, b);
      assert Straddles(cfg, req.start, b) || Whole(cfg, b);
      assert Logical(cfg, s.status, s.disk.vol, b) == Cell(cfg.image[b], 0);
    }
  }

  lemma MirrorsGetBuf(cfg: Config, s: Sys, i: nat, ok: bool, accepted: bool)
    requires Shape(cfg, s) && Mirrors(cfg, s) && i < |s.reqs| && s.reqs[i].phase.Buffering?
    ensures PhaseMirrors(cfg, s.status, s.hist, s.reqs[i].req, GetBufStep(cfg, s, i, ok, accepted).reqs[i].phase)
  {
    var req := s.reqs[i].req;
    assert IoShape(cfg, s.reqs[i], |s.chans|) && PhaseMirrors(cfg, s.status, s.hist, req, s.reqs[i].phase);
    if Backed(cfg, s.status, req.start) {
      RangeBacked(cfg, s.status, req);
    } else {
      ImageMirrors(cfg, s, i);
    }
  }

  lemma MirrorsReadBlock(cfg: Config, s: Sys, i: nat, b: nat)
    requires Shape(cfg, s) && Mirrors(cfg, s) && i < |s.reqs| && s.reqs[i].phase.BaseRead?
    requires b in s.reqs[i].phase.pending
    ensures PhaseMirrors(cfg, s.status, s.hist, s.reqs[i].req, BaseReadBlockStep(s, i, b).reqs[i].phase)
  {
    var p := s.reqs[i].phase;
    assert PhaseMirrors(cfg, s.status, s.hist, s.reqs[i].req, p);
    assert Backed(cfg, s.status, b);
    assert Logical(cfg, s.status, s.disk.vol, b) == s.disk.vol[b];
  }

  lemma MirrorsReadStep(cfg: Config, s: Sys, l: Label)
    requires Good(cfg, s) && Mirrors(cfg, s) && Enabled(cfg, s, l) && OfRead(l)
    requires Shape(cfg, RequestStep(cfg, s, l))
    ensures Mirrors(cfg, RequestStep(cfg, s, l))
  {
    TouchesRead(cfg, s, l);
    assert PhaseMirrors(cfg, s.status, s.hist, s.reqs[l.i].req, s.reqs[l.i].phase);
    match l {
      case GetBuf(i, ok, accepted) => MirrorsGetBuf(cfg, s, i, ok, accepted);
      case BaseReadBlock(i, b) => MirrorsReadBlock(cfg, s, i, b);
      case _ =>
    }
    MirrorsTouch(cfg, s, RequestStep(cfg, s, l), l.i);
  }

  // ---------------------------------------------------------------- a block write takes effect

  lemma MirroredWrite(cfg: Config, status: seq<Status>, vol: seq<Cell>, hist: Hist, b: nat, data: Data)
    requires ConfigOk(cfg) && |status| == MAX_STRIPES && |vol| == cfg.blocks && HistShape(cfg, hist)
    requires Mirrored(cfg, status, vol, hist) && b < cfg.blocks && Backed(cfg, status, b)
    ensures Mirrored(cfg, status, vol[b := Cell(data, |hist.log| + 1)], hist.(log := hist.log + [Entry(b, data)]))
  {
    var n := |hist.log|;
    var log' := hist.log + [Entry(b, data)];
    var vol' := vol[b := Cell(data, n + 1)];
    forall a: nat | a < cfg.blocks
      ensures Logical(cfg, status, vol', a) == Plain(hist.start, log', hist.epoch, |log'|, a)
    {
      PlainExtends(hist.start, hist.log, log', hist.epoch, n, a);
      assert Logical(cfg, status, vol, a) == Plain(hist.start, hist.log, hist.epoch, n, a);
    }
  }

  /** A write never lands in a stripe that is being copied. */
  lemma CopiesWrite(cfg: Config, status: seq<Status>, vol: seq<Cell>, chans: seq<Chan>, b: nat, cell: Cell)
    requires ConfigOk(cfg) && |status| == MAX_STRIPES && |vol| == cfg.blocks
    requires Copies(cfg, vol, chans) && OwnedOnce(status, chans) && b < cfg.blocks && Backed(cfg, status, b)
    ensures Copies(cfg, vol[b := cell], chans)
  {
    forall c, k | 0 <= c < |chans| && 0 <= k < |chans[c].slots|
      ensures SlotCopies(cfg, vol[b := cell], chans[c].slots[k])
    {
      var slot := chans[c].slots[k];
      assert SlotCopies(cfg, vol, slot);
      if slot.Copying? {
        SlotInflight(status, chans, c, k);
        assert b !in StripeBlocks(cfg, slot.stripe);
      }
    }
  }

  lemma MirrorsWrite(cfg: Config, s: Sys, i: nat, b: nat)
    requires Shape(cfg, s) && Fetches(cfg, s) && Mirrors(cfg, s)
    requires i < |s.reqs| && s.reqs[i].phase.Writing? && b in s.reqs[i].phase.pending
    requires b in Range(s.reqs[i].req) && s.reqs[i].req.count == |s.reqs[i].req.data|
    requires Shape(cfg, WriteApplyStep(cfg, s, i, b))
    ensures Mirrors(cfg, WriteApplyStep(cfg, s, i, b))
  {
    var t := WriteApplyStep(cfg, s, i, b);
    var req := s.reqs[i].req;
    assert PhaseMirrors(cfg, s.status, s.hist, req, s.reqs[i].phase);
    MirroredWrite(cfg, s.status, s.disk.vol, s.hist, b, req.data[b - req.start]);
    CopiesWrite(cfg, s.status, s.disk.vol, s.chans, b, t.disk.vol[b]);
    IoMirrorsLater(cfg, s.status, s.hist, t.status, t.hist, s.reqs);
  }

  // ---------------------------------------------------------------- every step

  lemma MirrorsFetchStep(cfg: Config, s: Sys, l: Label)
    requires Good(cfg, s) && Fetches(cfg, s) && Mirrors(cfg, s) && CopiesExact(cfg) && Enabled(cfg, s, l) && OfFetch(l)
    requires Shape(cfg, Step(cfg, s, l))
    ensures Mirrors(cfg, Step(cfg, s, l))
  {
    match l
    case StartFetch(c, k) =>
      CopiesUpdate(cfg, s.disk.vol, s.chans, c, k, StartFetchStep(s, c, k).chans[c]);
    case FetchRead(c, k, readOk, accepted) => MirrorsRead(cfg, s, c, k, readOk && accepted);
    case FetchApply(c, k, b, junk) => MirrorsApply(cfg, s, c, k, b, junk);
    case FetchDone(c, k) => MirrorsDone(cfg, s, c, k);
  }

  lemma MirrorsSubmit(cfg: Config, s: Sys, c: nat, req: Request)
    requires Shape(cfg, s) && Mirrors(cfg, s) && c < |s.chans| && RequestOk(cfg, req)
    requires Shape(cfg, SubmitStep(cfg, s, c, req))
    ensures Mirrors(cfg, SubmitStep(cfg, s, c, req))
  {
    var t := SubmitStep(cfg, s, c, req);
    MirroredStatus(cfg, s.status, t.status, s.disk.vol, s.hist);
    IoMirrorsLater(cfg, s.status, s.hist, t.status, t.hist, s.reqs);
  }

  lemma MirrorsPollStep(cfg: Config, s: Sys, l: Label)
    requires Good(cfg, s) && Mirrors(cfg, s) && Enabled(cfg, s, l) && (l.Reject? || l.Bug? || l.Serve?)
    requires Shape(cfg, Step(cfg, s, l))
    ensures Mirrors(cfg, Step(cfg, s, l))
  {
    PopsHead(cfg, s, l);
    if l.Serve? {
      MirrorsServe(cfg, s, l.c, l.accepted);
    } else {
      MirrorsPop(cfg, s, Step(cfg, s, l), l.c);
    }
  }

  lemma MirrorsWriteStep(cfg: Config, s: Sys, l: Label)
    requires Good(cfg, s) && Fetches(cfg, s) && Mirrors(cfg, s) && Enabled(cfg, s, l) && OfWrite(l)
    requires Shape(cfg, RequestStep(cfg, s, l))
    ensures Mirrors(cfg, RequestStep(cfg, s, l))
  {
    if l.WriteApply? {
      MirrorsWrite(cfg, s, l.i, l.b);
    } else {
      TouchesWrite(cfg, s, l);
      MirrorsTouch(cfg, s, RequestStep(cfg, s, l), l.i);
    }
  }

  lemma MirrorsFlushStep(cfg: Config, s: Sys, l: Label)
    requires Good(cfg, s) && Mirrors(cfg, s) && Enabled(cfg, s, l) && OfFlush(l)
    requires Shape(cfg, FlushStep(cfg, s, l))
    ensures Mirrors(cfg, FlushStep(cfg, s, l))
  {
    TouchesFlush(cfg, s, l);
    MirrorsTouch(cfg, s, FlushStep(cfg, s, l), l.i);
  }

  lemma MirrorsRing(cfg: Config, s: Sys, l: Label)
    requires Good(cfg, s) && Mirrors(cfg, s) && Enabled(cfg, s, l) && l.Ring?
    requires Shape(cfg, Step(cfg, s, l))
    ensures Mirrors(cfg, Step(cfg, s, l))
  {
    RingsOnly(cfg, s, l);
  }

  lemma MirrorsDeviceStep(cfg: Config, s: Sys, l: Label)
    requires Good(cfg, s) && Mirrors(cfg, s) && Enabled(cfg, s, l) && OfDevice(l)
    requires Shape(cfg, DeviceStep(cfg, s, l))
    ensures Mirrors(cfg, DeviceStep(cfg, s, l))
  {
  }

  lemma MirrorsStep(cfg: Config, s: Sys, l: Label)
    requires Good(cfg, s) && Fetches(cfg, s) && Mirrors(cfg, s) && CopiesExact(cfg) && Enabled(cfg, s, l)
    ensures Good(cfg, Step(cfg, s, l)) && Mirrors(cfg, Step(cfg, s, l))
  {
    GoodStep(cfg, s, l);
    if OfFetch(l) {
      MirrorsFetchStep(cfg, s, l);
    } else if l.Submit? {
      MirrorsSubmit(cfg, s, l.c, l.req);
    } else if l.Reject? || l.Bug? || l.Serve? {
      MirrorsPollStep(cfg, s, l);
    } else if OfRead(l) {
      MirrorsReadStep(cfg, s, l);
    } else if OfWrite(l) {
      MirrorsWriteStep(cfg, s, l);
    } else if OfFlush(l) {
      MirrorsFlushStep(cfg, s, l);
    } else if l.Ring? {
      MirrorsRing(cfg, s, l);
    } else if OfDevice(l) {
      MirrorsDeviceStep(cfg, s, l);
    }
  }
}
