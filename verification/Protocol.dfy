/**
 The bdev as a labelled step system. Each label is one callback of the module, or one step of its
 environment: the base device applying, settling or finishing an operation, the image file
 delivering a read, or a crash. Every label is deterministic, so a run is fixed by its labels.
 */
module Protocol {
  import opened Types
  import opened Metadata

  /**
   A block on the base device. `ver` says where the contents come from: -1 for whatever was on the
   device before the stripe was copied, 0 for the image (or, past the image, the initial contents),
   and n > 0 for the n-th block write that took effect.
   */
  datatype Cell = Cell(data: Data, ver: int)

  /** A block write of a user, as it took effect. */
  datatype Entry = Entry(block: nat, data: Data)

  /** The base device: each block and the metadata region, as cached and as durable. */
  datatype Disk = Disk(vol: seq<Cell>, dur: seq<Cell>, volMeta: Option<seq<bool>>, durMeta: Option<seq<bool>>)

  /** A slot of `stripe_fetches`: idle, reading from the image, or writing to the base device. */
  datatype Slot = Free | Reading(stripe: nat) | Copying(stripe: nat, pending: set<nat>)

  /**
   One I/O channel. `arrived` and `served` list the requests that ever entered and left `io`;
   `started` is the channel's count of started fetches. `polling` says that a poll which found work
   has not come to its end, and `prepared` holds the image reads that wait in the io_uring without
   having been submitted to the kernel.
   */
  datatype Chan = Chan(queue: seq<nat>, slots: seq<Slot>, io: seq<nat>, activeReads: int, started: nat,
                       arrived: seq<nat>, served: seq<nat>, polling: bool, prepared: set<nat>)

  /** The contents a read saw in one block, and how many block writes had then taken effect. */
  datatype Snap = Snap(data: Data, at: nat)

  /** Where a request is. `born` is the number of block writes in effect when a read was dispatched. */
  datatype Phase =
    | Waiting
    | Buffering(born: nat)
    | BaseRead(born: nat, pending: set<nat>, got: map<nat, Snap>)
    | ImageRead(born: nat, at: nat)
    | Writing(pending: set<nat>, vers: map<nat, nat>)
    | DataFlush(pending: set<nat>)
    | MetaWrite(snap: nat, want: seq<bool>, applied: bool)
    | MetaFlush(snap: nat, want: seq<bool>, settled: bool)
    | ReadOk(born: nat, got: map<nat, Snap>, end: nat)
    | WriteOk(vers: map<nat, nat>)
    | FlushOk(want: seq<bool>)
    | FlushSkipped
    | Error
    | Lost

  /** A submitted request; `mark` records, for a flush, the version of each block when it was submitted. */
  datatype Io = Io(chan: nat, req: Request, mark: seq<int>, phase: Phase)

  /**
   History kept for the statements: the disk at the start of the session, the block writes in effect
   since the disk was made, how many of them precede the session, the version each block is promised
   to keep, the session number, the stripes loaded as fetched, and the completions in order.
   */
  datatype Hist = Hist(start: seq<Cell>, log: seq<Entry>, epoch: nat, floor: seq<int>, session: nat,
                       loaded: nat, done: seq<nat>)

  datatype Sys = Sys(status: seq<Status>, headers: seq<bool>, fetched: nat, flushed: nat,
                     chans: seq<Chan>, reqs: seq<Io>, disk: Disk, hist: Hist)

  datatype Label =
    | Open
    | Submit(c: nat, req: Request)
    | StartFetch(c: nat, k: nat)
    | FetchRead(c: nat, k: nat, readOk: bool, accepted: bool)
    | FetchApply(c: nat, k: nat, b: nat, junk: Data)
    | FetchDone(c: nat, k: nat)
    | Reject(c: nat)
    | Bug(c: nat)
    | Serve(c: nat, accepted: bool)
    | Ring(c: nat, ok: bool)
    | GetBuf(i: nat, ok: bool, accepted: bool)
    | ImageReadDone(i: nat, ok: bool, junk: Data)
    | BaseReadBlock(i: nat, b: nat)
    | BaseReadDone(i: nat, ok: bool)
    | WriteApply(i: nat, b: nat)
    | WriteDone(i: nat, ok: bool)
    | FlushBlock(i: nat, b: nat)
    | DataFlushDone(i: nat, ok: bool, accepted: bool)
    | MetaApply(i: nat)
    | MetaWriteDone(i: nat, ok: bool, accepted: bool)
    | MetaSettle(i: nat)
    | MetaFlushDone(i: nat, ok: bool)
    | Destage(b: nat)
    | DestageMeta
    | Crash

  predicate OfFetch(l: Label) {
    l.StartFetch? || l.FetchRead? || l.FetchApply? || l.FetchDone?
  }

  predicate OfRead(l: Label) {
    l.GetBuf? || l.ImageReadDone? || l.BaseReadBlock? || l.BaseReadDone?
  }

  predicate OfWrite(l: Label) {
    l.WriteApply? || l.WriteDone?
  }

  predicate OfFlush(l: Label) {
    l.FlushBlock? || l.DataFlushDone? || l.MetaApply? || l.MetaWriteDone? || l.MetaSettle? || l.MetaFlushDone?
  }

  predicate OfDevice(l: Label) {
    l.Destage? || l.DestageMeta? || l.Crash?
  }

  // ---------------------------------------------------------------- what a block holds

  /** A block is served from the base device once its stripe is fetched, or if it is past the image. */
  predicate Backed(cfg: Config, status: seq<Status>, b: nat)
    requires 0 < cfg.stripeBlocks
    requires Stripe(cfg, b) < |status|
  {
    b >= |cfg.image| || status[Stripe(cfg, b)] == Fetched
  }

  /** The contents of a block as the bdev presents it. */
  function Logical(cfg: Config, status: seq<Status>, vol: seq<Cell>, b: nat): Cell
    requires 0 < cfg.stripeBlocks
    requires Stripe(cfg, b) < |status| && b < |vol|
  {
    if Backed(cfg, status, b) then vol[b] else Cell(cfg.image[b], 0)
  }

  predicate Flagged(meta: Option<seq<bool>>, x: nat) {
    meta.Some? && x < |meta.value| && meta.value[x]
  }

  /** The contents of a block after a crash at this moment. */
  function Recovered(cfg: Config, disk: Disk, b: nat): Cell
    requires 0 < cfg.stripeBlocks && b < |disk.dur|
  {
    if b >= |cfg.image| || Flagged(disk.durMeta, Stripe(cfg, b)) then disk.dur[b] else Cell(cfg.image[b], 0)
  }

  // ---------------------------------------------------------------- states

  ghost predicate MetaShape(meta: Option<seq<bool>>) {
    meta.Some? ==> |meta.value| == MAX_STRIPES
  }

  ghost predicate SlotShape(cfg: Config, slot: Slot)
    requires 0 < cfg.stripeBlocks
  {
    && (slot.Free? || slot.stripe < MAX_STRIPES)
    && (slot.Copying? ==> slot.pending <= StripeBlocks(cfg, slot.stripe))
  }

  ghost predicate ChanShape(cfg: Config, ch: Chan, n: nat)
    requires 0 < cfg.stripeBlocks
  {
    && |ch.slots| == MAX_STRIPE_FETCHES
    && (forall k | 0 <= k < |ch.queue| :: ch.queue[k] < MAX_STRIPES)
    && (forall k | 0 <= k < |ch.slots| :: SlotShape(cfg, ch.slots[k]))
    && (forall k | 0 <= k < |ch.io| :: ch.io[k] < n)
  }

  ghost predicate IoShape(cfg: Config, io: Io, chans: nat)
    requires 0 < cfg.stripeBlocks
  {
    && io.chan < chans
    && RequestOk(cfg, io.req)
    && (io.req.kind != Flush && io.phase != Error ==> !Spans(cfg, io.req))
    && (io.req.kind == Flush ==> |io.mark| == cfg.blocks)
    && PhaseShape(io.req, io.phase)
  }

  /** The phases a request of each kind can be in, and the blocks it still has to touch. */
  predicate PhaseShape(req: Request, phase: Phase) {
    match phase
    case Waiting => true
    case Buffering(_) => req.kind == Read
    case BaseRead(_, pending, got) => req.kind == Read && pending + got.Keys == Range(req)
    case ImageRead(_, _) => req.kind == Read
    case Writing(pending, vers) => req.kind == Write && pending + vers.Keys == Range(req)
    case DataFlush(pending) => req.kind == Flush && pending <= Range(req)
    case MetaWrite(_, want, _) => req.kind == Flush && |want| == MAX_STRIPES
    case MetaFlush(_, want, _) => req.kind == Flush && |want| == MAX_STRIPES
    case ReadOk(_, got, _) => req.kind == Read && got.Keys == Range(req)
    case WriteOk(vers) => req.kind == Write && vers.Keys == Range(req)
    case FlushOk(want) => req.kind == Flush && |want| == MAX_STRIPES
    case FlushSkipped => req.kind == Flush
    case Error => true
    case Lost => req.kind != Read
  }

  ghost predicate DiskShape(cfg: Config, disk: Disk) {
    && |disk.vol| == |disk.dur| == cfg.blocks
    && MetaShape(disk.volMeta) && MetaShape(disk.durMeta)
  }

  ghost predicate HistShape(cfg: Config, hist: Hist) {
    && |hist.start| == |hist.floor| == cfg.blocks
    && hist.epoch <= |hist.log|
  }

  /** Table sizes and index ranges. */
  ghost predicate Shape(cfg: Config, s: Sys) {
    && ConfigOk(cfg)
    && |s.status| == |s.headers| == MAX_STRIPES
    && (forall c | 0 <= c < |s.chans| :: ChanShape(cfg, s.chans[c], |s.reqs|))
    && (forall i | 0 <= i < |s.reqs| :: IoShape(cfg, s.reqs[i], |s.chans|))
    && DiskShape(cfg, s.disk)
    && HistShape(cfg, s.hist)
  }

  // ---------------------------------------------------------------- parts of steps

  function WithPhase(s: Sys, i: nat, phase: Phase): Sys
    requires i < |s.reqs|
  {
    s.(reqs := s.reqs[i := s.reqs[i].(phase := phase)])
  }

  function WithChan(s: Sys, c: nat, ch: Chan): Sys
    requires c < |s.chans|
  {
    s.(chans := s.chans[c := ch])
  }

  /** `spdk_bdev_io_complete`. */
  function Complete(s: Sys, i: nat, phase: Phase): Sys
    requires i < |s.reqs|
  {
    var t := WithPhase(s, i, phase);
    t.(hist := t.hist.(done := t.hist.done + [i]))
  }

  /** `ubi_complete_io` of a read. */
  function CompleteRead(s: Sys, i: nat, phase: Phase): Sys
    requires i < |s.reqs| && s.reqs[i].chan < |s.chans|
  {
    var c := s.reqs[i].chan;
    var t := WithChan(s, c, s.chans[c].(activeReads := s.chans[c].activeReads - 1));
    Complete(t, i, phase)
  }

  /** A block reaches the cache of the base device, or the medium if there is no cache. */
  function Stored(cfg: Config, disk: Disk, b: nat, cell: Cell): Disk
    requires b < |disk.vol| == |disk.dur|
  {
    disk.(vol := disk.vol[b := cell], dur := if cfg.writeThrough then disk.dur[b := cell] else disk.dur)
  }

  /** The first request of `io` leaves it, in a poll. */
  function Popped(ch: Chan): Chan
    requires ch.io != []
  {
    ch.(io := ch.io[1..], served := ch.served + [ch.io[0]], polling := true)
  }

  /** A stripe enters the ring, which has no check: one entry more than fits makes it look empty. */
  function Pushed(queue: seq<nat>, x: nat): seq<nat> {
    if |queue| < FETCH_QUEUE_SIZE - 1 then queue + [x] else []
  }

  /** A poll that starts now does not return early, or one that did not has yet to end. */
  predicate Began(ch: Chan) {
    ch.polling || ch.io != [] || ch.queue != []
  }

  datatype Verdict = AtReadLimit | Refused | Blocked | Unexpected | Servable

  /** What the poller does with the first waiting request. */
  function Decide(cfg: Config, status: seq<Status>, activeReads: int, req: Request): Verdict
    requires 0 < cfg.stripeBlocks
    requires Stripe(cfg, req.start) < |status|
  {
    if req.kind == Read && activeReads >= MAX_CONCURRENT_READS then AtReadLimit
    else if !OnImage(cfg, req) then Servable
    else
      match status[Stripe(cfg, req.start)]
      case Failed => Refused
      case Inflight => Blocked
      case NotFetched => if Fetching(cfg, req) then Unexpected else Servable
      case Fetched => Servable
  }

  ghost predicate HeadIs(cfg: Config, s: Sys, c: nat, v: Verdict)
    requires Shape(cfg, s)
  {
    && c < |s.chans| && s.chans[c].io != []
    && Decide(cfg, s.status, s.chans[c].activeReads, s.reqs[s.chans[c].io[0]].req) == v
  }

  predicate InSlot(s: Sys, c: nat, k: nat) {
    c < |s.chans| && k < |s.chans[c].slots|
  }

  /** Entries of the channel's io_uring that have not been reaped. */
  function RingEntries(s: Sys, c: nat): nat
    requires c < |s.chans|
  {
    |set k: nat | k < |s.chans[c].slots| && s.chans[c].slots[k].Reading?|
    + |set i: nat | i < |s.reqs| && s.reqs[i].chan == c && s.reqs[i].phase.ImageRead?|
  }

  /** The version of each block served from the base device, -1 elsewhere. */
  function Versions(cfg: Config, status: seq<Status>, vol: seq<Cell>): (mark: seq<int>)
    requires 0 < cfg.stripeBlocks
    requires forall b: nat | b < |vol| :: Stripe(cfg, b) < |status|
    ensures |mark| == |vol|
  {
    seq(|vol|, b requires 0 <= b < |vol| => if Backed(cfg, status, b) then vol[b].ver else -1)
  }

  /** A flush that ends with success promises the versions recorded when it was submitted. */
  function Raised(floor: seq<int>, io: Io): (r: seq<int>)
    requires |io.mark| == |floor|
    ensures |r| == |floor|
  {
    seq(|floor|, b requires 0 <= b < |floor| =>
      if b in Range(io.req) && io.mark[b] > floor[b] then io.mark[b] else floor[b])
  }

  function CompleteFlush(s: Sys, i: nat, want: seq<bool>): Sys
    requires i < |s.reqs| && |s.reqs[i].mark| == |s.hist.floor|
  {
    var t := Complete(s, i, FlushOk(want));
    t.(hist := t.hist.(floor := Raised(s.hist.floor, s.reqs[i])))
  }

  function EmptyChan(): Chan {
    Chan([], seq(MAX_STRIPE_FETCHES, _ => Free), [], 0, 0, [], [], false, {})
  }

  /** The bytes of a metadata region: zeroed, or as last written. */
  function MetaBytes(cfg: Config, meta: Option<seq<bool>>): (bytes: seq<Byte>)
    requires meta.Some? ==> |meta.value| == MAX_STRIPES
    ensures |bytes| == METADATA_SIZE
  {
    match meta
    case None => Zeros(METADATA_SIZE)
    case Some(flags) => Encode(Header(cfg.stripeSizeKb, flags))
  }

  // ---------------------------------------------------------------- steps

  /** `ubi_submit_request`. */
  function SubmitStep(cfg: Config, s: Sys, c: nat, req: Request): Sys
    requires 0 < cfg.stripeBlocks && c < |s.chans|
    requires |s.disk.vol| == cfg.blocks && (forall b: nat | b < cfg.blocks :: Stripe(cfg, b) < |s.status|)
    requires req.start < cfg.blocks
  {
    var i := |s.reqs|;
    var mark := Versions(cfg, s.status, s.disk.vol);
    if Fetching(cfg, req) && Spans(cfg, req) then
      Complete(s.(reqs := s.reqs + [Io(c, req, mark, Waiting)]), i, Error)
    else
      var x := Stripe(cfg, req.start);
      var ch := s.chans[c].(io := s.chans[c].io + [i], arrived := s.chans[c].arrived + [i]);
      var t := s.(reqs := s.reqs + [Io(c, req, mark, Waiting)]);
      if Fetching(cfg, req) && OnImage(cfg, req) && s.status[x] == NotFetched then
        WithChan(t, c, ch.(queue := Pushed(ch.queue, x))).(status := s.status[x := Inflight])
      else
        WithChan(t, c, ch)
  }

  /**
   The poller hands the oldest queued stripe to a free slot and starts reading the image. That
   submits all that is prepared in the io_uring.
   */
  function StartFetchStep(s: Sys, c: nat, k: nat): Sys
    requires c < |s.chans| && s.chans[c].queue != [] && k < |s.chans[c].slots|
  {
    var ch := s.chans[c];
    WithChan(s, c, ch.(queue := ch.queue[1..], slots := ch.slots[k := Reading(ch.queue[0])],
                       started := ch.started + 1, polling := true, prepared := {}))
  }

  /** The end of a poll that found work: the prepared image reads are submitted, or that fails. */
  function RingStep(s: Sys, c: nat, ok: bool): Sys
    requires c < |s.chans|
  {
    var ch := s.chans[c];
    WithChan(s, c, ch.(polling := false, prepared := if ok then {} else ch.prepared))
  }

  function WithSlot(s: Sys, c: nat, k: nat, slot: Slot): Sys
    requires InSlot(s, c, k)
  {
    WithChan(s, c, s.chans[c].(slots := s.chans[c].slots[k := slot]))
  }

  /** `ubi_complete_fetch_stripe`: the image delivered the stripe, which is then written to the base device. */
  function FetchReadStep(cfg: Config, s: Sys, c: nat, k: nat, ok: bool): Sys
    requires 0 < cfg.stripeBlocks && InSlot(s, c, k) && s.chans[c].slots[k].Reading?
    requires s.chans[c].slots[k].stripe < |s.status|
  {
    var x := s.chans[c].slots[k].stripe;
    if ok then WithSlot(s, c, k, Copying(x, StripeBlocks(cfg, x)))
    else WithSlot(s, c, k, Free).(status := s.status[x := Failed])
  }

  /** One block of a stripe reaches the base device; past the end of the file the buffer holds leftovers. */
  function FetchApplyStep(cfg: Config, s: Sys, c: nat, k: nat, b: nat, junk: Data): Sys
    requires InSlot(s, c, k) && s.chans[c].slots[k].Copying? && b < |s.disk.vol| == |s.disk.dur|
  {
    var slot := s.chans[c].slots[k];
    var cell := if Whole(cfg, b) then Cell(cfg.image[b], 0) else Cell(junk, -1);
    WithSlot(s, c, k, slot.(pending := slot.pending - {b})).(disk := Stored(cfg, s.disk, b, cell))
  }

  /** `write_stripe_io_completion`. */
  function FetchDoneStep(s: Sys, c: nat, k: nat): Sys
    requires InSlot(s, c, k) && s.chans[c].slots[k] != Free
    requires s.chans[c].slots[k].stripe < |s.status| == |s.headers|
  {
    var x := s.chans[c].slots[k].stripe;
    WithSlot(s, c, k, Free).(status := s.status[x := Fetched],
                             headers := s.headers[x := true], fetched := s.fetched + 1)
  }

  function RejectStep(s: Sys, c: nat): Sys
    requires c < |s.chans| && s.chans[c].io != [] && s.chans[c].io[0] < |s.reqs|
  {
    Complete(WithChan(s, c, Popped(s.chans[c])), s.chans[c].io[0], Error)
  }

  /** The poller takes the first request off the list and starts serving it. */
  function ServeStep(cfg: Config, s: Sys, c: nat, accepted: bool): Sys
    requires c < |s.chans| && s.chans[c].io != [] && s.chans[c].io[0] < |s.reqs|
  {
    var i := s.chans[c].io[0];
    var req := s.reqs[i].req;
    var ch := Popped(s.chans[c]);
    match req.kind
    case Read => WithPhase(WithChan(s, c, ch.(activeReads := ch.activeReads + 1)), i, Buffering(|s.hist.log|))
    case Write => WithPhase(WithChan(s, c, ch), i, if accepted then Writing(Range(req), map[]) else Lost)
    case Flush =>
      var t := WithChan(s, c, ch);
      if cfg.noSync then Complete(t, i, FlushSkipped)
      else if accepted then WithPhase(t, i, DataFlush(Range(req)))
      else Complete(t, i, Error)
  }

  /** An image read enters the io_uring. */
  function PrepareRead(s: Sys, i: nat, phase: Phase): Sys
    requires i < |s.reqs| && s.reqs[i].chan < |s.chans|
  {
    var c := s.reqs[i].chan;
    WithPhase(WithChan(s, c, s.chans[c].(prepared := s.chans[c].prepared + {i})), i, phase)
  }

  /** `get_buf_for_read_cb`. */
  function GetBufStep(cfg: Config, s: Sys, i: nat, ok: bool, accepted: bool): Sys
    requires 0 < cfg.stripeBlocks && i < |s.reqs| && s.reqs[i].phase.Buffering? && s.reqs[i].chan < |s.chans|
    requires Stripe(cfg, s.reqs[i].req.start) < |s.status|
  {
    var req, born := s.reqs[i].req, s.reqs[i].phase.born;
    if !ok then CompleteRead(s, i, Error)
    else if Backed(cfg, s.status, req.start) then
      if accepted then WithPhase(s, i, BaseRead(born, Range(req), map[])) else CompleteRead(s, i, Error)
    else if RingEntries(s, s.reqs[i].chan) >= URING_QUEUE_SIZE then CompleteRead(s, i, Error)
    else PrepareRead(s, i, ImageRead(born, |s.hist.log|))
  }

  /** The blocks an image read delivers: what the file does not hold is leftovers in the buffer. */
  function ImageBlocks(cfg: Config, req: Request, at: nat, junk: Data): map<nat, Snap> {
    map b | b in Range(req) :: Snap(if Whole(cfg, b) then cfg.image[b] else junk, at)
  }

  /** `ubi_complete_read_from_image`. */
  function ImageReadDoneStep(cfg: Config, s: Sys, i: nat, ok: bool, junk: Data): Sys
    requires i < |s.reqs| && s.reqs[i].phase.ImageRead? && s.reqs[i].chan < |s.chans|
  {
    var p := s.reqs[i].phase;
    if ok then CompleteRead(s, i, ReadOk(p.born, ImageBlocks(cfg, s.reqs[i].req, p.at, junk), |s.hist.log|))
    else CompleteRead(s, i, Error)
  }

  function BaseReadBlockStep(s: Sys, i: nat, b: nat): Sys
    requires i < |s.reqs| && s.reqs[i].phase.BaseRead? && b < |s.disk.vol|
  {
    var p := s.reqs[i].phase;
    WithPhase(s, i, BaseRead(p.born, p.pending - {b}, p.got[b := Snap(s.disk.vol[b].data, |s.hist.log|)]))
  }

  /** `ubi_io_completion_cb` of a read. */
  function BaseReadDoneStep(s: Sys, i: nat, ok: bool): Sys
    requires i < |s.reqs| && s.reqs[i].phase.BaseRead? && s.reqs[i].chan < |s.chans|
  {
    var p := s.reqs[i].phase;
    CompleteRead(s, i, if ok then ReadOk(p.born, p.got, |s.hist.log|) else Error)
  }

  function WriteApplyStep(cfg: Config, s: Sys, i: nat, b: nat): Sys
    requires i < |s.reqs| && s.reqs[i].phase.Writing? && b < |s.disk.vol| == |s.disk.dur|
    requires b in Range(s.reqs[i].req) && s.reqs[i].req.count == |s.reqs[i].req.data|
  {
    var p, req := s.reqs[i].phase, s.reqs[i].req;
    var data := req.data[b - req.start];
    var ver := |s.hist.log| + 1;
    WithPhase(s, i, Writing(p.pending - {b}, p.vers[b := ver])).(
      disk := Stored(cfg, s.disk, b, Cell(data, ver)),
      hist := s.hist.(log := s.hist.log + [Entry(b, data)]))
  }

  /** `ubi_io_completion_cb` of a write. */
  function WriteDoneStep(s: Sys, i: nat, ok: bool): Sys
    requires i < |s.reqs| && s.reqs[i].phase.Writing?
  {
    Complete(s, i, if ok then WriteOk(s.reqs[i].phase.vers) else Error)
  }

  function Settled(disk: Disk, b: nat): Disk
    requires b < |disk.vol| == |disk.dur|
  {
    disk.(dur := disk.dur[b := disk.vol[b]])
  }

  function FlushBlockStep(s: Sys, i: nat, b: nat): Sys
    requires i < |s.reqs| && s.reqs[i].phase.DataFlush? && b < |s.disk.vol| == |s.disk.dur|
  {
    WithPhase(s, i, DataFlush(s.reqs[i].phase.pending - {b})).(disk := Settled(s.disk, b))
  }

  /** `ubi_data_flush_completion`: a failed data flush is never completed. */
  function DataFlushDoneStep(s: Sys, i: nat, ok: bool, accepted: bool): Sys
    requires i < |s.reqs| && |s.reqs[i].mark| == |s.hist.floor|
  {
    if !ok then WithPhase(s, i, Lost)
    else if s.fetched == s.flushed then CompleteFlush(s, i, s.headers)
    else if accepted then WithPhase(s, i, MetaWrite(s.fetched, s.headers, false))
    else Complete(s, i, Error)
  }

  /** The metadata write takes effect: it reads the live in-memory headers. */
  function MetaApplyStep(cfg: Config, s: Sys, i: nat): Sys
    requires i < |s.reqs| && s.reqs[i].phase.MetaWrite?
  {
    var live := Some(s.headers);
    WithPhase(s, i, s.reqs[i].phase.(applied := true)).(
      disk := s.disk.(volMeta := live, durMeta := if cfg.writeThrough then live else s.disk.durMeta))
  }

  /** `ubi_metadata_write_completion`. */
  function MetaWriteDoneStep(s: Sys, i: nat, ok: bool, accepted: bool): Sys
    requires i < |s.reqs| && s.reqs[i].phase.MetaWrite?
  {
    var p := s.reqs[i].phase;
    if ok && accepted then WithPhase(s, i, MetaFlush(p.snap, p.want, false)) else Complete(s, i, Error)
  }

  function MetaSettleStep(s: Sys, i: nat): Sys
    requires i < |s.reqs| && s.reqs[i].phase.MetaFlush?
  {
    WithPhase(s, i, s.reqs[i].phase.(settled := true)).(disk := s.disk.(durMeta := s.disk.volMeta))
  }

  /** `ubi_metadata_flush_completion`. */
  function MetaFlushDoneStep(s: Sys, i: nat, ok: bool): Sys
    requires i < |s.reqs| && s.reqs[i].phase.MetaFlush? && |s.reqs[i].mark| == |s.hist.floor|
  {
    var p := s.reqs[i].phase;
    if !ok then Complete(s, i, Error)
    else CompleteFlush(s, i, p.want).(flushed := if p.snap > s.flushed then p.snap else s.flushed)
  }

  /** A crash loses the cache and everything in memory; the bdev is then created again from the base device. */
  function CrashStep(cfg: Config, s: Sys, loaded: Loaded): Sys
    requires 0 < cfg.stripeBlocks && loaded.Loaded?
    requires |s.disk.dur| == cfg.blocks && (forall b: nat | b < cfg.blocks :: Stripe(cfg, b) < |loaded.status|)
  {
    var dur := s.disk.dur;
    Sys(loaded.status, loaded.flags, loaded.stripesFetched, loaded.stripesFlushed, [], [],
        Disk(dur, dur, s.disk.durMeta, s.disk.durMeta),
        Hist(seq(|dur|, b requires 0 <= b < |dur| => Logical(cfg, loaded.status, dur, b)),
             s.hist.log, |s.hist.log|, s.hist.floor, s.hist.session + 1, loaded.stripesFetched, []))
  }

  ghost predicate Enabled(cfg: Config, s: Sys, l: Label)
    requires Shape(cfg, s)
  {
    match l
    case Open => true
    case Submit(c, req) => c < |s.chans| && RequestOk(cfg, req)
    case StartFetch(c, k) => InSlot(s, c, k) && s.chans[c].queue != [] && s.chans[c].slots[k] == Free
    case FetchRead(c, k, readOk, accepted) =>
      && InSlot(s, c, k) && s.chans[c].slots[k].Reading?
      && (accepted ==> Fits(cfg, s.chans[c].slots[k].stripe))
    case FetchApply(c, k, b, _) =>
      InSlot(s, c, k) && s.chans[c].slots[k].Copying? && b in s.chans[c].slots[k].pending
    case FetchDone(c, k) => InSlot(s, c, k) && s.chans[c].slots[k].Copying? && s.chans[c].slots[k].pending == {}
    case Reject(c) => HeadIs(cfg, s, c, Refused)
    case Bug(c) => HeadIs(cfg, s, c, Unexpected)
    case Serve(c, _) => HeadIs(cfg, s, c, Servable)
    case Ring(c, _) => c < |s.chans| && Began(s.chans[c]) && (s.chans[c].polling || s.chans[c].prepared != {})
    case GetBuf(i, _, _) => i < |s.reqs| && s.reqs[i].phase.Buffering?
    case ImageReadDone(i, _, _) =>
      i < |s.reqs| && s.reqs[i].phase.ImageRead? && i !in s.chans[s.reqs[i].chan].prepared
    case BaseReadBlock(i, b) => i < |s.reqs| && s.reqs[i].phase.BaseRead? && b in s.reqs[i].phase.pending
    case BaseReadDone(i, ok) => i < |s.reqs| && s.reqs[i].phase.BaseRead? && (ok ==> s.reqs[i].phase.pending == {})
    case WriteApply(i, b) => i < |s.reqs| && s.reqs[i].phase.Writing? && b in s.reqs[i].phase.pending
    case WriteDone(i, ok) => i < |s.reqs| && s.reqs[i].phase.Writing? && (ok ==> s.reqs[i].phase.pending == {})
    case FlushBlock(i, b) => i < |s.reqs| && s.reqs[i].phase.DataFlush? && b in s.reqs[i].phase.pending
    case DataFlushDone(i, ok, _) => i < |s.reqs| && s.reqs[i].phase.DataFlush? && (ok ==> s.reqs[i].phase.pending == {})
    case MetaApply(i) => i < |s.reqs| && s.reqs[i].phase.MetaWrite? && !s.reqs[i].phase.applied
    case MetaWriteDone(i, ok, _) => i < |s.reqs| && s.reqs[i].phase.MetaWrite? && (ok ==> s.reqs[i].phase.applied)
    case MetaSettle(i) => i < |s.reqs| && s.reqs[i].phase.MetaFlush? && !s.reqs[i].phase.settled
    case MetaFlushDone(i, ok) => i < |s.reqs| && s.reqs[i].phase.MetaFlush? && (ok ==> s.reqs[i].phase.settled)
    case Destage(b) => b < cfg.blocks
    case DestageMeta => true
    case Crash => Load(MetaBytes(cfg, s.disk.durMeta)).Loaded?
  }

  /** The steps of a channel: submission and what the poller does. */
  ghost function Step(cfg: Config, s: Sys, l: Label): Sys
    requires Shape(cfg, s) && Enabled(cfg, s, l)
  {
    match l
    case Open => s.(chans := s.chans + [EmptyChan()])
    case Submit(c, req) => SubmitStep(cfg, s, c, req)
    case StartFetch(c, k) => StartFetchStep(s, c, k)
    case FetchRead(c, k, readOk, accepted) => FetchReadStep(cfg, s, c, k, readOk && accepted)
    case FetchApply(c, k, b, junk) => FetchApplyStep(cfg, s, c, k, b, junk)
    case FetchDone(c, k) => FetchDoneStep(s, c, k)
    case Reject(c) => RejectStep(s, c)
    case Bug(c) => RejectStep(s, c)
    case Serve(c, accepted) => ServeStep(cfg, s, c, accepted)
    case Ring(c, ok) => RingStep(s, c, ok)
    case _ => RequestStep(cfg, s, l)
  }

  /** The steps of a dispatched read or write. */
  ghost function RequestStep(cfg: Config, s: Sys, l: Label): Sys
    requires Shape(cfg, s) && Enabled(cfg, s, l)
  {
    match l
    case GetBuf(i, ok, accepted) => GetBufStep(cfg, s, i, ok, accepted)
    case ImageReadDone(i, ok, junk) => ImageReadDoneStep(cfg, s, i, ok, junk)
    case BaseReadBlock(i, b) => BaseReadBlockStep(s, i, b)
    case BaseReadDone(i, ok) => BaseReadDoneStep(s, i, ok)
    case WriteApply(i, b) => WriteApplyStep(cfg, s, i, b)
    case WriteDone(i, ok) => WriteDoneStep(s, i, ok)
    case _ => FlushStep(cfg, s, l)
  }

  /** The steps of a dispatched flush. */
  ghost function FlushStep(cfg: Config, s: Sys, l: Label): Sys
    requires Shape(cfg, s) && Enabled(cfg, s, l)
  {
    match l
    case FlushBlock(i, b) => FlushBlockStep(s, i, b)
    case DataFlushDone(i, ok, accepted) => DataFlushDoneStep(s, i, ok, accepted)
    case MetaApply(i) => MetaApplyStep(cfg, s, i)
    case MetaWriteDone(i, ok, accepted) => MetaWriteDoneStep(s, i, ok, accepted)
    case MetaSettle(i) => MetaSettleStep(s, i)
    case MetaFlushDone(i, ok) => MetaFlushDoneStep(s, i, ok)
    case _ => DeviceStep(cfg, s, l)
  }

  /** The steps the base device takes on its own, and crashes. */
  ghost function DeviceStep(cfg: Config, s: Sys, l: Label): Sys
    requires Shape(cfg, s) && Enabled(cfg, s, l)
  {
    match l
    case Destage(b) => s.(disk := Settled(s.disk, b))
    case DestageMeta => s.(disk := s.disk.(durMeta := s.disk.volMeta))
    case Crash => CrashStep(cfg, s, Load(MetaBytes(cfg, s.disk.durMeta)))
    case _ => s
  }

  /** A new disk: the metadata region is zeroed and the data area holds arbitrary blocks. */
  function BlankDisk(cfg: Config): Disk
    requires |cfg.base| == cfg.blocks
  {
    var cells := seq(cfg.blocks, b requires 0 <= b < cfg.blocks =>
      Cell(cfg.base[b], if b < |cfg.image| then -1 else 0));
    Disk(cells, cells, None, None)
  }

  /** The disk a user expects: the image, and past it the initial contents of the base device. */
  function CopiedDisk(cfg: Config): seq<Cell>
    requires |cfg.image| <= cfg.blocks == |cfg.base|
  {
    seq(cfg.blocks, b requires 0 <= b < cfg.blocks => Cell(if b < |cfg.image| then cfg.image[b] else cfg.base[b], 0))
  }

  function Init(cfg: Config): Sys
    requires |cfg.image| <= cfg.blocks == |cfg.base|
  {
    Sys(StatusOf(Cleared()), Cleared(), 0, 0, [], [], BlankDisk(cfg),
        Hist(CopiedDisk(cfg), [], 0, seq(cfg.blocks, _ => -1), 0, 0, []))
  }

  /** Step `i` leads from its state to the next. */
  ghost predicate Goes(cfg: Config, ss: seq<Sys>, ls: seq<Label>, i: nat)
    requires i < |ls| == |ss| - 1
  {
    Shape(cfg, ss[i]) && Enabled(cfg, ss[i], ls[i]) && ss[i + 1] == Step(cfg, ss[i], ls[i])
  }

  ghost predicate AllGo(cfg: Config, ss: seq<Sys>, ls: seq<Label>) {
    |ss| == |ls| + 1 && forall i: nat | i < |ls| :: Goes(cfg, ss, ls, i)
  }

  /** The states and labels of a run from a new disk. */
  ghost predicate IsRun(cfg: Config, ss: seq<Sys>, ls: seq<Label>) {
    ConfigOk(cfg) && AllGo(cfg, ss, ls) && ss[0] == Init(cfg)
  }
}
