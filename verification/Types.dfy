/**
 The constants of `bdev_ubi`, the options a bdev is created with, and the I/O requests it serves.
 */
module Types {

  const METADATA_SIZE: nat := 8388608
  const MAX_STRIPES: nat := 2097152
  const STRIPE_SIZE_MIN: nat := 64
  const STRIPE_SIZE_MAX: nat := 1024
  const MAX_STRIPE_FETCHES: nat := 8
  const MAX_CONCURRENT_READS: nat := 24
  const FETCH_QUEUE_SIZE: nat := 32768
  const URING_QUEUE_SIZE: nat := 32
  const UINT64_MAX: nat := 0xFFFF_FFFF_FFFF_FFFF

  datatype Option<+T> = None | Some(value: T)

  /** The contents of one block. Nothing here looks inside a block. */
  type Data = int

  datatype Status = NotFetched | Inflight | Failed | Fetched

  datatype Kind = Read | Write | Flush

  /** One I/O request; `data` holds the blocks of a write and is empty otherwise. */
  datatype Request = Request(kind: Kind, start: nat, count: nat, data: seq<Data>)

  /**
   What is fixed while a bdev exists: its geometry, the image, whether the image file ends inside
   its last block, the initial contents of the data area of the base device, the creation options,
   and whether the base device has a volatile cache.
   */
  datatype Config = Config(stripeSizeKb: nat, stripeBlocks: nat, blocks: nat,
                           image: seq<Data>, partialEnd: bool, base: seq<Data>,
                           copyOnRead: bool, noSync: bool, writeThrough: bool)

  /** The image file holds all of block `b`. Of its last block it may hold a part only. */
  predicate Whole(cfg: Config, b: nat) {
    b < |cfg.image| && !(cfg.partialEnd && b + 1 == |cfg.image|)
  }

  /** The stripe of a block: the block number shifted right by log2 of the stripe's block count. */
  function Stripe(cfg: Config, b: nat): nat
    requires 0 < cfg.stripeBlocks
  {
    b / cfg.stripeBlocks
  }

  /** Every stripe of the device has an entry in the status table and in the metadata. */
  ghost predicate ConfigOk(cfg: Config) {
    && 0 < cfg.stripeBlocks
    && |cfg.image| <= cfg.blocks == |cfg.base|
    && forall b: nat | b < cfg.blocks :: Stripe(cfg, b) < MAX_STRIPES
  }

  /** The blocks of the device that lie in stripe `x`. */
  function StripeBlocks(cfg: Config, x: nat): set<nat>
    requires 0 < cfg.stripeBlocks
  {
    set b: nat | b < cfg.blocks && Stripe(cfg, b) == x
  }

  /** A base device accepts a whole-stripe write only if the stripe lies within it. */
  predicate Fits(cfg: Config, x: nat) {
    (x + 1) * cfg.stripeBlocks <= cfg.blocks
  }

  predicate Covers(req: Request, b: nat) {
    req.start <= b < req.start + req.count
  }

  function Range(req: Request): set<nat> {
    set b: nat | b < req.start + req.count && Covers(req, b)
  }

  /** The last block of a request, in the unsigned 64-bit arithmetic of the original. */
  function EndBlock(req: Request): nat {
    if req.start + req.count == 0 then UINT64_MAX else req.start + req.count - 1
  }

  predicate Spans(cfg: Config, req: Request)
    requires 0 < cfg.stripeBlocks
  {
    Stripe(cfg, req.start) != Stripe(cfg, EndBlock(req))
  }

  /** Requests for which submission checks the boundary and starts a fetch. */
  predicate Fetching(cfg: Config, req: Request) {
    req.kind == Write || (req.kind == Read && cfg.copyOnRead)
  }

  /** Requests whose service depends on the status of their stripe. */
  predicate OnImage(cfg: Config, req: Request) {
    req.kind != Flush && req.start < |cfg.image|
  }

  /** What the SPDK bdev layer guarantees of a request before it reaches the module. */
  ghost predicate RequestOk(cfg: Config, req: Request)
    requires 0 < cfg.stripeBlocks
  {
    && req.start < cfg.blocks
    && req.start + req.count <= cfg.blocks
    && (req.kind == Write ==> |req.data| == req.count)
    && (req.kind == Read && !cfg.copyOnRead ==> !Spans(cfg, req))
  }

  /** A request that does not span a stripe boundary has all its blocks in the stripe of its first block. */
  lemma OneStripe(cfg: Config, req: Request, b: nat)
    requires 0 < cfg.stripeBlocks
    requires !Spans(cfg, req) && b in Range(req)
    ensures Stripe(cfg, b) == Stripe(cfg, req.start)
  {
    var e := EndBlock(req);
    DivMonotone(req.start, b, cfg.stripeBlocks);
    DivMonotone(b, e, cfg.stripeBlocks);
  }

  lemma DivMonotone(a: nat, b: nat, d: nat)
    requires 0 < d && a <= b
    ensures a / d <= b / d
  {
    var q, r := a / d, b / d;
    assert q * d <= a && b < (r + 1) * d;
    MulCancels(q, r + 1, d);
  }

  lemma MulCancels(x: nat, y: nat, d: nat)
    requires x * d < y * d
    ensures x < y
  {
    assert x * d - y * d == (x - y) * d;
  }

  lemma MulMonotone(a: nat, b: nat, d: nat)
    requires a <= b
    ensures a * d <= b * d
  {
    assert b * d - a * d == (b - a) * d;
  }
}
