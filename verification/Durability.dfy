/** What a successful flush promises survives every later crash. */
module Durability {
  import opened Types
  import opened Metadata
  import opened Protocol
  import opened Frames
  import opened Order
  import opened Ownership
  import opened Refinement
  import opened Placement
  import opened Headers

  /** The version of a cell tells the truth about its contents. */
  ghost predicate Honest(cfg: Config, log: seq<Entry>, b: nat, cell: Cell)
    requires b < cfg.blocks == |cfg.base|
  {
    && -1 <= cell.ver <= |log|
    && (cell.ver == 0 ==> cell.data == if b < |cfg.image| then cfg.image[b] else cfg.base[b])
    && (cell.ver > 0 ==> log[cell.ver - 1] == Entry(b, cell.data))
  }

  ghost predicate AllHonest(cfg: Config, log: seq<Entry>, cells: seq<Cell>)
    requires cfg.blocks == |cfg.base|
  {
    |cells| == cfg.blocks && forall b: nat | b < cfg.blocks :: Honest(cfg, log, b, cells[b])
  }

  /** The data flush of a request has passed block `b`. */
  predicate Passed(phase: Phase, b: nat) {
    (phase.DataFlush? && b !in phase.pending) || phase.MetaWrite? || phase.MetaFlush? || phase.FlushOk?
  }

  /** Where a flush stands with block `b`, whose version it recorded when submitted. */
  ghost predicate MarkKept(cfg: Config, status: seq<Status>, disk: Disk, floor: seq<int>, io: Io, b: nat)
    requires ConfigOk(cfg) && |status| == MAX_STRIPES && DiskShape(cfg, disk)
    requires b < cfg.blocks == |io.mark| == |floor|
  {
    io.mark[b] >= 0 ==>
      && Backed(cfg, status, b) && io.mark[b] <= disk.vol[b].ver
      && (Passed(io.phase, b) ==> io.mark[b] <= disk.dur[b].ver)
      && (io.phase.MetaWrite? || io.phase.MetaFlush? ==>
            b >= |cfg.image| || (Stripe(cfg, b) < |io.phase.want| && io.phase.want[Stripe(cfg, b)]))
      && (io.phase.FlushOk? ==> io.mark[b] <= floor[b])
  }

  /** The `v`-th block write was this request's write of block `b`, and the block is no older than that. */
  ghost predicate VersionKept(cfg: Config, status: seq<Status>, disk: Disk, hist: Hist, req: Request, b: nat, v: nat)
    requires ConfigOk(cfg) && |status| == MAX_STRIPES && DiskShape(cfg, disk)
  {
    && b < cfg.blocks && Backed(cfg, status, b)
    && hist.epoch < v <= |hist.log| && v <= disk.vol[b].ver
    && b in Range(req) && |req.data| == req.count && hist.log[v - 1] == Entry(b, req.data[b - req.start])
  }

  ghost predicate IoKept(cfg: Config, status: seq<Status>, disk: Disk, hist: Hist, io: Io)
    requires ConfigOk(cfg) && |status| == MAX_STRIPES && DiskShape(cfg, disk) && HistShape(cfg, hist)
  {
    && (io.req.kind == Flush && |io.mark| == cfg.blocks ==>
          forall b: nat | b in Range(io.req) && b < cfg.blocks :: MarkKept(cfg, status, disk, hist.floor, io, b))
    && (io.phase.Writing? || io.phase.WriteOk? ==>
          forall b | b in io.phase.vers :: VersionKept(cfg, status, disk, hist, io.req, b, io.phase.vers[b]))
  }

  /** Block `b` will be served from the base device after a crash. */
  predicate Lasting(cfg: Config, disk: Disk, b: nat)
    requires 0 < cfg.stripeBlocks
  {
    b >= |cfg.image| || Flagged(disk.durMeta, Stripe(cfg, b))
  }

  ghost predicate FloorKept(cfg: Config, disk: Disk, floor: seq<int>)
    requires ConfigOk(cfg) && DiskShape(cfg, disk) && |floor| == cfg.blocks
  {
    forall b: nat | b < cfg.blocks && floor[b] >= 0 ::
      Lasting(cfg, disk, b) && floor[b] <= disk.vol[b].ver && floor[b] <= disk.dur[b].ver
  }

  ghost predicate Keeping(cfg: Config, s: Sys)
    requires Shape(cfg, s)
  {
    && AllHonest(cfg, s.hist.log, s.disk.vol) && AllHonest(cfg, s.hist.log, s.disk.dur)
    && FloorKept(cfg, s.disk, s.hist.floor)
    && (forall i | 0 <= i < |s.reqs| :: IoKept(cfg, s.status, s.disk, s.hist, s.reqs[i]))
  }

  // ---------------------------------------------------------------- what does not disturb it

  function Min(a: int, b: int): int {
    if a < b then a else b
  }

  /** No visible block goes back in the cache, nor on the medium below what was both cached and durable. */
  ghost predicate Grows(cfg: Config, status: seq<Status>, disk: Disk, disk': Disk)
    requires ConfigOk(cfg) && |status| == MAX_STRIPES && DiskShape(cfg, disk) && DiskShape(cfg, disk')
  {
    && (forall b: nat | b < cfg.blocks && Backed(cfg, status, b) ::
          disk.vol[b].ver <= disk'.vol[b].ver && Min(disk.vol[b].ver, disk.dur[b].ver) <= disk'.dur[b].ver)
    && Included(MetaFlags(disk.durMeta), MetaFlags(disk'.durMeta))
  }

  ghost predicate Rises(floor: seq<int>, floor': seq<int>) {
    |floor| == |floor'| && forall b | 0 <= b < |floor| :: floor[b] <= floor'[b]
  }

  lemma MarkLater(cfg: Config, status: seq<Status>, disk: Disk, floor: seq<int>, status': seq<Status>, disk': Disk,
                  floor': seq<int>, io: Io, b: nat)
    requires ConfigOk(cfg) && |status| == MAX_STRIPES && DiskShape(cfg, disk) && DiskShape(cfg, disk')
    requires b < cfg.blocks == |io.mark| == |floor|
    requires MarkKept(cfg, status, disk, floor, io, b)
    requires Keeps(status, status') && Grows(cfg, status, disk, disk') && Rises(floor, floor')
    ensures MarkKept(cfg, status', disk', floor', io, b)
  {
  }

  lemma IoKeptLater(cfg: Config, status: seq<Status>, disk: Disk, hist: Hist, status': seq<Status>, disk': Disk,
                    hist': Hist, io: Io)
    requires ConfigOk(cfg) && |status| == MAX_STRIPES && DiskShape(cfg, disk) && DiskShape(cfg, disk')
    requires HistShape(cfg, hist) && HistShape(cfg, hist')
    requires IoKept(cfg, status, disk, hist, io)
    requires Keeps(status, status') && Grows(cfg, status, disk, disk') && Continues(hist, hist')
    requires Rises(hist.floor, hist'.floor)
    ensures IoKept(cfg, status', disk', hist', io)
  {
    if io.req.kind == Flush && |io.mark| == cfg.blocks {
      forall b: nat | b in Range(io.req) && b < cfg.blocks
        ensures MarkKept(cfg, status', disk', hist'.floor, io, b)
      {
        MarkLater(cfg, status, disk, hist.floor, status', disk', hist'.floor, io, b);
      }
    }
    if io.phase.Writing? || io.phase.WriteOk? {
      forall b | b in io.phase.vers
        ensures VersionKept(cfg, status', disk', hist', io.req, b, io.phase.vers[b])
      {
        assert VersionKept(cfg, status, disk, hist, io.req, b, io.phase.vers[b]);
      }
    }
  }

  /** A block that survives a crash is visible now. */
  lemma LastingBacked(cfg: Config, s: Sys, b: nat)
    requires Shape(cfg, s) && Flagging(s) && b < cfg.blocks && Lasting(cfg, s.disk, b)
    ensures Backed(cfg, s.status, b)
  {
    if b < |cfg.image| {
      assert MetaFlags(s.disk.durMeta)[Stripe(cfg, b)];
    }
  }

  lemma FloorLater(cfg: Config, s: Sys, disk': Disk)
    requires Shape(cfg, s) && Flagging(s) && DiskShape(cfg, disk')
    requires FloorKept(cfg, s.disk, s.hist.floor) && Grows(cfg, s.status, s.disk, disk')
    ensures FloorKept(cfg, disk', s.hist.floor)
  {
    forall b: nat | b < cfg.blocks && s.hist.floor[b] >= 0
      ensures Lasting(cfg, disk', b) && s.hist.floor[b] <= disk'.vol[b].ver && s.hist.floor[b] <= disk'.dur[b].ver
    {
      LastingBacked(cfg, s, b);
      assert b >= |cfg.image| || MetaFlags(disk'.durMeta)[Stripe(cfg, b)];
    }
  }

  /** A step that keeps every block and all requests but perhaps `i`. */
  lemma KeepingLater(cfg: Config, s: Sys, t: Sys, i: nat)
    requires Shape(cfg, s) && Flagging(s) && Keeping(cfg, s) && Shape(cfg, t)
    requires Keeps(s.status, t.status) && Grows(cfg, s.status, s.disk, t.disk) && Continues(s.hist, t.hist)
    requires Rises(s.hist.floor, t.hist.floor)
    requires AllHonest(cfg, t.hist.log, t.disk.vol) && AllHonest(cfg, t.hist.log, t.disk.dur)
    requires FloorKept(cfg, t.disk, t.hist.floor)
    requires |s.reqs| <= |t.reqs| <= |s.reqs| + 1 && (|s.reqs| < |t.reqs| ==> i == |s.reqs|)
    requires forall j | 0 <= j < |s.reqs| && j != i :: t.reqs[j] == s.reqs[j]
    requires i < |t.reqs| ==> IoKept(cfg, t.status, t.disk, t.hist, t.reqs[i])
    ensures Keeping(cfg, t)
  {
    forall j | 0 <= j < |t.reqs|
      ensures IoKept(cfg, t.status, t.disk, t.hist, t.reqs[j])
    {
      if j != i {
        IoKeptLater(cfg, s.status, s.disk, s.hist, t.status, t.disk, t.hist, s.reqs[j]);
      }
    }
  }

  lemma GrowsSame(cfg: Config, status: seq<Status>, disk: Disk)
    requires ConfigOk(cfg) && |status| == MAX_STRIPES && DiskShape(cfg, disk)
    ensures Grows(cfg, status, disk, disk)
  {
  }

  // ---------------------------------------------------------------- the disk

  lemma GrowsWrite(cfg: Config, status: seq<Status>, disk: Disk, b: nat, cell: Cell)
    requires ConfigOk(cfg) && |status| == MAX_STRIPES && DiskShape(cfg, disk) && b < cfg.blocks
    requires !Backed(cfg, status, b) || (disk.vol[b].ver <= cell.ver && disk.dur[b].ver <= cell.ver)
    ensures Grows(cfg, status, disk, Stored(cfg, disk, b, cell))
  {
  }

  lemma GrowsSettle(cfg: Config, status: seq<Status>, disk: Disk, b: nat)
    requires ConfigOk(cfg) && |status| == MAX_STRIPES && DiskShape(cfg, disk) && b < cfg.blocks
    ensures Grows(cfg, status, disk, Settled(disk, b))
  {
  }

  lemma HonestLater(cfg: Config, log: seq<Entry>, log': seq<Entry>, cells: seq<Cell>)
    requires cfg.blocks == |cfg.base| && AllHonest(cfg, log, cells) && log <= log'
    ensures AllHonest(cfg, log', cells)
  {
    forall b: nat | b < cfg.blocks
      ensures Honest(cfg, log', b, cells[b])
    {
      assert Honest(cfg, log, b, cells[b]);
    }
  }

  lemma HonestStore(cfg: Config, log: seq<Entry>, disk: Disk, b: nat, cell: Cell)
    requires ConfigOk(cfg) && DiskShape(cfg, disk) && b < cfg.blocks && Honest(cfg, log, b, cell)
    requires AllHonest(cfg, log, disk.vol) && AllHonest(cfg, log, disk.dur)
    ensures AllHonest(cfg, log, Stored(cfg, disk, b, cell).vol) && AllHonest(cfg, log, Stored(cfg, disk, b, cell).dur)
  {
  }

  // ---------------------------------------------------------------- fetches

  lemma KeepingApply(cfg: Config, s: Sys, c: nat, k: nat, b: nat, junk: Data)
    requires Shape(cfg, s) && OwnedOnce(s.status, s.chans) && Placed(cfg, s) && Flagging(s) && Keeping(cfg, s)
    requires InSlot(s, c, k) && s.chans[c].slots[k].Copying? && b in s.chans[c].slots[k].pending
    requires Shape(cfg, FetchApplyStep(cfg, s, c, k, b, junk))
    ensures Keeping(cfg, FetchApplyStep(cfg, s, c, k, b, junk))
  {
    var t := FetchApplyStep(cfg, s, c, k, b, junk);
    var cell := if Whole(cfg, b) then Cell(cfg.image[b], 0) else Cell(junk, -1);
    assert SlotInside(cfg, s.chans[c].slots[k]) && b in StripeBlocks(cfg, s.chans[c].slots[k].stripe);
    SlotInflight(s.status, s.chans, c, k);
    HonestStore(cfg, s.hist.log, s.disk, b, cell);
    GrowsWrite(cfg, s.status, s.disk, b, cell);
    FloorLater(cfg, s, t.disk);
    KeepingLater(cfg, s, t, |s.reqs|);
  }

  lemma KeepingFetchStep(cfg: Config, s: Sys, l: Label)
    requires Good(cfg, s) && Fetches(cfg, s) && Placed(cfg, s) && Flagging(s) && Keeping(cfg, s)
    requires Enabled(cfg, s, l) && OfFetch(l)
    requires Shape(cfg, Step(cfg, s, l))
    ensures Keeping(cfg, Step(cfg, s, l))
  {
    if l.FetchApply? {
      KeepingApply(cfg, s, l.c, l.k, l.b, l.junk);
    } else {
      AdvancesSlot(cfg, s, l);
      SlotInflightIfBusy(cfg, s, l.c, l.k);
      GrowsSame(cfg, s.status, s.disk);
      KeepingLater(cfg, s, Step(cfg, s, l), |s.reqs|);
    }
  }

  // ---------------------------------------------------------------- submission and dispatch

  lemma KeepingSubmit(cfg: Config, s: Sys, c: nat, req: Request)
    requires Shape(cfg, s) && Flagging(s) && Keeping(cfg, s) && c < |s.chans| && RequestOk(cfg, req)
    requires Shape(cfg, SubmitStep(cfg, s, c, req))
    ensures Keeping(cfg, SubmitStep(cfg, s, c, req))
  {
    var t := SubmitStep(cfg, s, c, req);
    var io := t.reqs[|s.reqs|];
    GrowsSame(cfg, s.status, s.disk);
    assert IoKept(cfg, t.status, t.disk, t.hist, io);
    KeepingLater(cfg, s, t, |s.reqs|);
  }

  lemma KeepingPop(cfg: Config, s: Sys, t: Sys, c: nat)
    requires Shape(cfg, s) && Flagging(s) && Keeping(cfg, s) && Shape(cfg, t) && Pops(s, t, c)
    requires var i := s.chans[c].io[0]; IoKept(cfg, s.status, s.disk, s.hist, s.reqs[i].(phase := t.reqs[i].phase))
    ensures Keeping(cfg, t)
  {
    var i := s.chans[c].io[0];
    GrowsSame(cfg, s.status, s.disk);
    IoKeptLater(cfg, s.status, s.disk, s.hist, t.status, t.disk, t.hist, s.reqs[i].(phase := t.reqs[i].phase));
    KeepingLater(cfg, s, t, i);
  }

  lemma KeepingPollStep(cfg: Config, s: Sys, l: Label)
    requires Good(cfg, s) && Flagging(s) && Keeping(cfg, s) && Enabled(cfg, s, l) && (l.Reject? || l.Bug? || l.Serve?)
    requires Shape(cfg, Step(cfg, s, l))
    ensures Keeping(cfg, Step(cfg, s, l))
  {
    PopsHead(cfg, s, l);
    assert IoKept(cfg, s.status, s.disk, s.hist, s.reqs[s.chans[l.c].io[0]]);
    KeepingPop(cfg, s, Step(cfg, s, l), l.c);
  }

  lemma KeepingReadStep(cfg: Config, s: Sys, l: Label)
    requires Good(cfg, s) && Flagging(s) && Keeping(cfg, s) && Enabled(cfg, s, l) && OfRead(l)
    requires Shape(cfg, RequestStep(cfg, s, l))
    ensures Keeping(cfg, RequestStep(cfg, s, l))
  {
    TouchesRead(cfg, s, l);
    ReadStays(cfg, s, l);
    GrowsSame(cfg, s.status, s.disk);
    KeepingLater(cfg, s, RequestStep(cfg, s, l), l.i);
  }

  // ---------------------------------------------------------------- writes

  lemma WriteGrows(cfg: Config, s: Sys, b: nat, data: Data)
    requires Shape(cfg, s) && Flagging(s) && Keeping(cfg, s) && b < cfg.blocks
    ensures var log', disk' := s.hist.log + [Entry(b, data)], Stored(cfg, s.disk, b, Cell(data, |s.hist.log| + 1));
            && AllHonest(cfg, log', disk'.vol) && AllHonest(cfg, log', disk'.dur)
            && Grows(cfg, s.status, s.disk, disk') && FloorKept(cfg, disk', s.hist.floor)
  {
    var log', cell := s.hist.log + [Entry(b, data)], Cell(data, |s.hist.log| + 1);
    HonestLater(cfg, s.hist.log, log', s.disk.vol);
    HonestLater(cfg, s.hist.log, log', s.disk.dur);
    HonestStore(cfg, log', s.disk, b, cell);
    assert Honest(cfg, s.hist.log, b, s.disk.vol[b]) && Honest(cfg, s.hist.log, b, s.disk.dur[b]);
    GrowsWrite(cfg, s.status, s.disk, b, cell);
    FloorLater(cfg, s, Stored(cfg, s.disk, b, cell));
  }

  lemma KeepingWrite(cfg: Config, s: Sys, i: nat, b: nat)
    requires Shape(cfg, s) && Flagging(s) && Keeping(cfg, s)
    requires i < |s.reqs| && s.reqs[i].phase.Writing? && b in s.reqs[i].phase.pending
    requires PhasePlaced(cfg, s.status, s.reqs[i].phase)
    requires b in Range(s.reqs[i].req) && s.reqs[i].req.count == |s.reqs[i].req.data|
    requires Shape(cfg, WriteApplyStep(cfg, s, i, b))
    ensures Keeping(cfg, WriteApplyStep(cfg, s, i, b))
  {
    var t, data := WriteApplyStep(cfg, s, i, b), s.reqs[i].req.data[b - s.reqs[i].req.start];
    WriteGrows(cfg, s, b, data);
    assert t.disk == Stored(cfg, s.disk, b, Cell(data, |s.hist.log| + 1));
    assert t.hist.log == s.hist.log + [Entry(b, data)] && Continues(s.hist, t.hist);
    WriteIoKept(cfg, s, t, i, b);
    KeepingLater(cfg, s, t, i);
  }

  lemma WriteIoKept(cfg: Config, s: Sys, t: Sys, i: nat, b: nat)
    requires Shape(cfg, s) && Keeping(cfg, s)
    requires i < |s.reqs| && s.reqs[i].phase.Writing? && b in s.reqs[i].phase.pending
    requires PhasePlaced(cfg, s.status, s.reqs[i].phase)
    requires b in Range(s.reqs[i].req) && s.reqs[i].req.count == |s.reqs[i].req.data|
    requires t == WriteApplyStep(cfg, s, i, b) && DiskShape(cfg, t.disk) && HistShape(cfg, t.hist)
    requires Grows(cfg, s.status, s.disk, t.disk)
    ensures IoKept(cfg, t.status, t.disk, t.hist, t.reqs[i])
  {
    IoKeptLater(cfg, s.status, s.disk, s.hist, t.status, t.disk, t.hist, s.reqs[i]);
    WriteKeptNow(cfg, s, i, b);
    VersionsGain(cfg, t.status, t.disk, t.hist, s.reqs[i], t.reqs[i], b);
  }

  lemma VersionsGain(cfg: Config, status: seq<Status>, disk: Disk, hist: Hist, was: Io, io: Io, b: nat)
    requires ConfigOk(cfg) && |status| == MAX_STRIPES && DiskShape(cfg, disk) && HistShape(cfg, hist)
    requires IoKept(cfg, status, disk, hist, was) && was.phase.Writing? && io == was.(phase := io.phase)
    requires io.phase.Writing? && b in io.phase.vers && io.phase.vers == was.phase.vers[b := io.phase.vers[b]]
    requires VersionKept(cfg, status, disk, hist, io.req, b, io.phase.vers[b])
    ensures IoKept(cfg, status, disk, hist, io)
  {
    forall a: nat | io.req.kind == Flush && |io.mark| == cfg.blocks && a in Range(io.req) && a < cfg.blocks
      ensures MarkKept(cfg, status, disk, hist.floor, io, a)
    {
      assert MarkKept(cfg, status, disk, hist.floor, was, a);
    }
  }

  lemma WriteKeptNow(cfg: Config, s: Sys, i: nat, b: nat)
    requires Shape(cfg, s)
    requires i < |s.reqs| && s.reqs[i].phase.Writing? && b in s.reqs[i].phase.pending
    requires PhasePlaced(cfg, s.status, s.reqs[i].phase)
    requires b in Range(s.reqs[i].req) && s.reqs[i].req.count == |s.reqs[i].req.data|
    ensures var t := WriteApplyStep(cfg, s, i, b);
            VersionKept(cfg, t.status, t.disk, t.hist, s.reqs[i].req, b, |t.hist.log|)
  {
  }

  lemma KeepingWriteStep(cfg: Config, s: Sys, l: Label)
    requires Good(cfg, s) && Placed(cfg, s) && Flagging(s) && Keeping(cfg, s) && Enabled(cfg, s, l) && OfWrite(l)
    requires Shape(cfg, RequestStep(cfg, s, l))
    ensures Keeping(cfg, RequestStep(cfg, s, l))
  {
    if l.WriteApply? {
      assert PhasePlaced(cfg, s.status, s.reqs[l.i].phase);
      KeepingWrite(cfg, s, l.i, l.b);
    } else {
      TouchesWrite(cfg, s, l);
      var t := RequestStep(cfg, s, l);
      GrowsSame(cfg, s.status, s.disk);
      IoKeptLater(cfg, s.status, s.disk, s.hist, t.status, t.disk, t.hist, s.reqs[l.i]);
      KeepingLater(cfg, s, t, l.i);
    }
  }

  // ---------------------------------------------------------------- flushes

  /** A flush advances without raising the floor. */
  lemma KeepingTouch(cfg: Config, s: Sys, t: Sys, i: nat)
    requires Shape(cfg, s) && Flagging(s) && Keeping(cfg, s) && Shape(cfg, t) && Touches(s, t, i)
    requires Continues(s.hist, t.hist) && t.hist.log == s.hist.log && t.hist.floor == s.hist.floor
    requires Grows(cfg, s.status, s.disk, t.disk)
    requires AllHonest(cfg, s.hist.log, t.disk.vol) && AllHonest(cfg, s.hist.log, t.disk.dur)
    requires IoKept(cfg, t.status, t.disk, t.hist, t.reqs[i])
    ensures Keeping(cfg, t)
  {
    FloorLater(cfg, s, t.disk);
    KeepingLater(cfg, s, t, i);
  }

  lemma KeepingFlushBlock(cfg: Config, s: Sys, i: nat, b: nat)
    requires Shape(cfg, s) && Flagging(s) && Keeping(cfg, s)
    requires i < |s.reqs| && s.reqs[i].phase.DataFlush? && b in s.reqs[i].phase.pending && b < cfg.blocks
    requires Shape(cfg, FlushBlockStep(s, i, b)) && Touches(s, FlushBlockStep(s, i, b), i)
    ensures Keeping(cfg, FlushBlockStep(s, i, b))
  {
    var t := FlushBlockStep(s, i, b);
    GrowsSettle(cfg, s.status, s.disk, b);
    IoKeptLater(cfg, s.status, s.disk, s.hist, t.status, t.disk, t.hist, s.reqs[i]);
    forall a: nat | a in Range(t.reqs[i].req) && a < cfg.blocks
      ensures MarkKept(cfg, t.status, t.disk, t.hist.floor, t.reqs[i], a)
    {
      assert MarkKept(cfg, t.status, t.disk, t.hist.floor, s.reqs[i], a);
    }
    KeepingTouch(cfg, s, t, i);
  }

  /** Every block a flush recorded is durable and will be found again, so the floor can be raised. */
  lemma KeepingRaise(cfg: Config, s: Sys, i: nat, want: seq<bool>, flushed: nat)
    requires Shape(cfg, s) && Flagging(s) && Keeping(cfg, s)
    requires i < |s.reqs| && s.reqs[i].req.kind == Flush && |want| == MAX_STRIPES && InFlight(s.reqs[i].phase)
    requires forall b: nat | b in Range(s.reqs[i].req) && b < cfg.blocks && s.reqs[i].mark[b] >= 0 ::
               Passed(s.reqs[i].phase, b) && Lasting(cfg, s.disk, b)
    requires Shape(cfg, CompleteFlush(s, i, want).(flushed := flushed))
    ensures Keeping(cfg, CompleteFlush(s, i, want).(flushed := flushed))
  {
    var io := s.reqs[i];
    var t := CompleteFlush(s, i, want).(flushed := flushed);
    assert IoKept(cfg, s.status, s.disk, s.hist, io);
    GrowsSame(cfg, s.status, s.disk);
    forall b: nat | b < cfg.blocks && t.hist.floor[b] >= 0
      ensures Lasting(cfg, t.disk, b) && t.hist.floor[b] <= t.disk.vol[b].ver && t.hist.floor[b] <= t.disk.dur[b].ver
    {
      if t.hist.floor[b] != s.hist.floor[b] {
        assert MarkKept(cfg, s.status, s.disk, s.hist.floor, io, b);
      }
    }
    forall b: nat | b in Range(io.req) && b < cfg.blocks
      ensures MarkKept(cfg, t.status, t.disk, t.hist.floor, t.reqs[i], b)
    {
      assert MarkKept(cfg, s.status, s.disk, s.hist.floor, io, b);
    }
    KeepingLater(cfg, s, t, i);
  }

  lemma KeepingDataFlushed(cfg: Config, s: Sys, i: nat, ok: bool, accepted: bool)
    requires Shape(cfg, s) && Flagging(s) && Keeping(cfg, s)
    requires i < |s.reqs| && s.reqs[i].phase.DataFlush? && (ok ==> s.reqs[i].phase.pending == {})
    requires Shape(cfg, DataFlushDoneStep(s, i, ok, accepted)) && Touches(s, DataFlushDoneStep(s, i, ok, accepted), i)
    ensures Keeping(cfg, DataFlushDoneStep(s, i, ok, accepted))
  {
    var t := DataFlushDoneStep(s, i, ok, accepted);
    var io := s.reqs[i];
    GrowsSame(cfg, s.status, s.disk);
    assert IoKept(cfg, s.status, s.disk, s.hist, io);
    if ok && s.fetched == s.flushed {
      CountersAgree(s.status, s.headers, s.fetched, s.flushed, MetaFlags(s.disk.volMeta), MetaFlags(s.disk.durMeta));
      forall b: nat | b in Range(io.req) && b < cfg.blocks && io.mark[b] >= 0
        ensures Passed(io.phase, b) && Lasting(cfg, s.disk, b)
      {
        assert MarkKept(cfg, s.status, s.disk, s.hist.floor, io, b);
        MarkLasting(cfg, s, b);
      }
      KeepingRaise(cfg, s, i, s.headers, s.flushed);
    } else {
      forall b: nat | b in Range(io.req) && b < cfg.blocks
        ensures MarkKept(cfg, t.status, t.disk, t.hist.floor, t.reqs[i], b)
      {
        assert MarkKept(cfg, s.status, s.disk, s.hist.floor, io, b);
      }
      KeepingTouch(cfg, s, t, i);
    }
  }

  /** When the counters agree, a visible block survives a crash. */
  lemma MarkLasting(cfg: Config, s: Sys, b: nat)
    requires Shape(cfg, s) && Flagging(s) && b < cfg.blocks && Backed(cfg, s.status, b)
    requires MetaFlags(s.disk.durMeta) == s.headers
    ensures Lasting(cfg, s.disk, b)
  {
    if b < |cfg.image| {
      assert s.headers[Stripe(cfg, b)];
    }
  }

  lemma KeepingFlushed(cfg: Config, s: Sys, i: nat, ok: bool)
    requires Shape(cfg, s) && Flagging(s) && Keeping(cfg, s)
    requires i < |s.reqs| && s.reqs[i].phase.MetaFlush? && (ok ==> s.reqs[i].phase.settled)
    requires Shape(cfg, MetaFlushDoneStep(s, i, ok)) && Touches(s, MetaFlushDoneStep(s, i, ok), i)
    ensures Keeping(cfg, MetaFlushDoneStep(s, i, ok))
  {
    var t := MetaFlushDoneStep(s, i, ok);
    var io := s.reqs[i];
    GrowsSame(cfg, s.status, s.disk);
    assert IoKept(cfg, s.status, s.disk, s.hist, io);
    if ok {
      forall b: nat | b in Range(io.req) && b < cfg.blocks && io.mark[b] >= 0
        ensures Passed(io.phase, b) && Lasting(cfg, s.disk, b)
      {
        assert MarkKept(cfg, s.status, s.disk, s.hist.floor, io, b);
        assert PhaseFlags(s.headers, MetaFlags(s.disk.volMeta), MetaFlags(s.disk.durMeta), io.phase);
        if b < |cfg.image| {
          assert MetaFlags(s.disk.durMeta)[Stripe(cfg, b)];
        }
      }
      KeepingRaise(cfg, s, i, io.phase.want, t.flushed);
    } else {
      assert IoKept(cfg, t.status, t.disk, t.hist, t.reqs[i]) by {
        forall b: nat | b in Range(io.req) && b < cfg.blocks
          ensures MarkKept(cfg, t.status, t.disk, t.hist.floor, t.reqs[i], b)
        {
          assert MarkKept(cfg, s.status, s.disk, s.hist.floor, io, b);
        }
      }
      KeepingTouch(cfg, s, t, i);
    }
  }

  /** Metadata moves to the base device. */
  lemma KeepingMeta(cfg: Config, s: Sys, t: Sys, i: nat)
    requires Shape(cfg, s) && Flagging(s) && Keeping(cfg, s) && Shape(cfg, t) && Touches(s, t, i)
    requires t.disk.vol == s.disk.vol && t.disk.dur == s.disk.dur && t.hist == s.hist.(done := t.hist.done)
    requires Included(MetaFlags(s.disk.durMeta), MetaFlags(t.disk.durMeta))
    requires s.reqs[i].req.kind == Flush
    requires || t.reqs[i].phase.Error?
             || ((t.reqs[i].phase.MetaWrite? || t.reqs[i].phase.MetaFlush?)
                 && (s.reqs[i].phase.MetaWrite? || s.reqs[i].phase.MetaFlush?)
                 && t.reqs[i].phase.want == s.reqs[i].phase.want)
    ensures Keeping(cfg, t)
  {
    var io := s.reqs[i];
    assert IoKept(cfg, s.status, s.disk, s.hist, io);
    forall b: nat | b in Range(io.req) && b < cfg.blocks
      ensures MarkKept(cfg, t.status, t.disk, t.hist.floor, t.reqs[i], b)
    {
      assert MarkKept(cfg, s.status, s.disk, s.hist.floor, io, b);
    }
    KeepingTouch(cfg, s, t, i);
  }

  lemma KeepingFlushStep(cfg: Config, s: Sys, l: Label)
    requires Good(cfg, s) && Flagging(s) && Keeping(cfg, s) && Enabled(cfg, s, l) && OfFlush(l)
    requires Shape(cfg, FlushStep(cfg, s, l))
    ensures Keeping(cfg, FlushStep(cfg, s, l))
  {
    TouchesFlush(cfg, s, l);
    if l.FlushBlock? || l.DataFlushDone? {
      KeepingDataStep(cfg, s, l);
    } else {
      KeepingMetaStep(cfg, s, l);
    }
  }

  lemma KeepingDataStep(cfg: Config, s: Sys, l: Label)
    requires Good(cfg, s) && Flagging(s) && Keeping(cfg, s) && Enabled(cfg, s, l) && (l.FlushBlock? || l.DataFlushDone?)
    requires Shape(cfg, FlushStep(cfg, s, l)) && Touches(s, FlushStep(cfg, s, l), l.i)
    ensures Keeping(cfg, FlushStep(cfg, s, l))
  {
    match l
    case FlushBlock(i, b) =>
      assert IoShape(cfg, s.reqs[i], |s.chans|);
      KeepingFlushBlock(cfg, s, i, b);
    case DataFlushDone(i, ok, accepted) => KeepingDataFlushed(cfg, s, i, ok, accepted);
  }

  lemma KeepingMetaStep(cfg: Config, s: Sys, l: Label)
    requires Good(cfg, s) && Flagging(s) && Keeping(cfg, s) && Enabled(cfg, s, l)
    requires l.MetaApply? || l.MetaWriteDone? || l.MetaSettle? || l.MetaFlushDone?
    requires Shape(cfg, FlushStep(cfg, s, l)) && Touches(s, FlushStep(cfg, s, l), l.i)
    ensures Keeping(cfg, FlushStep(cfg, s, l))
  {
    if l.MetaFlushDone? {
      KeepingFlushed(cfg, s, l.i, l.ok);
    } else {
      MetaMoves(cfg, s, l);
      KeepingMeta(cfg, s, FlushStep(cfg, s, l), l.i);
    }
  }

  lemma MetaMoves(cfg: Config, s: Sys, l: Label)
    requires Shape(cfg, s) && Flagging(s) && Enabled(cfg, s, l) && (l.MetaApply? || l.MetaWriteDone? || l.MetaSettle?)
    ensures var t := FlushStep(cfg, s, l);
            && t.disk.vol == s.disk.vol && t.disk.dur == s.disk.dur && t.hist == s.hist.(done := t.hist.done)
            && Included(MetaFlags(s.disk.durMeta), MetaFlags(t.disk.durMeta))
            && s.reqs[l.i].req.kind == Flush && |t.reqs| == |s.reqs|
            && (|| t.reqs[l.i].phase.Error?
                || ((t.reqs[l.i].phase.MetaWrite? || t.reqs[l.i].phase.MetaFlush?)
                    && (s.reqs[l.i].phase.MetaWrite? || s.reqs[l.i].phase.MetaFlush?)
                    && t.reqs[l.i].phase.want == s.reqs[l.i].phase.want))
  {
    assert IoShape(cfg, s.reqs[l.i], |s.chans|);
  }

  // ---------------------------------------------------------------- the base device on its own, and crashes

  lemma KeepingCrash(cfg: Config, s: Sys)
    requires Shape(cfg, s) && Keeping(cfg, s)
    requires Enabled(cfg, s, Crash) && Shape(cfg, DeviceStep(cfg, s, Crash))
    ensures Keeping(cfg, DeviceStep(cfg, s, Crash))
  {
  }

  lemma KeepingRing(cfg: Config, s: Sys, l: Label)
    requires Good(cfg, s) && Keeping(cfg, s) && Enabled(cfg, s, l) && l.Ring?
    requires Shape(cfg, Step(cfg, s, l))
    ensures Keeping(cfg, Step(cfg, s, l))
  {
    RingsOnly(cfg, s, l);
  }

  lemma KeepingDeviceStep(cfg: Config, s: Sys, l: Label)
    requires Good(cfg, s) && Flagging(s) && Keeping(cfg, s) && Enabled(cfg, s, l) && OfDevice(l)
    requires Shape(cfg, DeviceStep(cfg, s, l))
    ensures Keeping(cfg, DeviceStep(cfg, s, l))
  {
    if l.Crash? {
      KeepingCrash(cfg, s);
    } else {
      var t := DeviceStep(cfg, s, l);
      if l.Destage? {
        GrowsSettle(cfg, s.status, s.disk, l.b);
      }
      FloorLater(cfg, s, t.disk);
      KeepingLater(cfg, s, t, |s.reqs|);
    }
  }

  lemma KeepingStep(cfg: Config, s: Sys, l: Label)
    requires Good(cfg, s) && Fetches(cfg, s) && Placed(cfg, s) && Flagging(s) && Keeping(cfg, s) && Enabled(cfg, s, l)
    ensures Good(cfg, Step(cfg, s, l)) && Keeping(cfg, Step(cfg, s, l))
  {
    GoodStep(cfg, s, l);
    if OfFetch(l) {
      KeepingFetchStep(cfg, s, l);
    } else if l.Submit? {
      KeepingSubmit(cfg, s, l.c, l.req);
    } else if l.Reject? || l.Bug? || l.Serve? {
      KeepingPollStep(cfg, s, l);
    } else if OfRead(l) {
      KeepingReadStep(cfg, s, l);
    } else if OfWrite(l) {
      KeepingWriteStep(cfg, s, l);
    } else if OfFlush(l) {
      KeepingFlushStep(cfg, s, l);
    } else if l.Ring? {
      KeepingRing(cfg, s, l);
    } else if OfDevice(l) {
      KeepingDeviceStep(cfg, s, l);
    }
  }
}
