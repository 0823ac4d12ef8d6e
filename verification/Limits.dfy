/**
 Where the promises end, with exact conditions: an image file that ends inside a stripe or a block,
 a volatile cache, stripes that stick out of the device, and requests that are never completed.
 */
module Limits {
  import opened Types
  import opened Protocol
  import opened Refinement
  import opened Staleness
  import opened Progress
  import opened Runs
  import opened Fates
  import opened Scenarios

  // ---------------------------------------------------------------- the end of the image, in a caller's terms

  lemma SameStripe(a: nat, b: nat, d: nat)
    requires 0 < d && a <= b && a / d == b / d
    ensures forall c: nat | a <= c <= b :: c / d == a / d
  {
    forall c: nat | a <= c <= b
      ensures c / d == a / d
    {
      DivMonotone(a, c, d);
      DivMonotone(c, b, d);
    }
  }

  /** The stripe in which the image file ends: not at its end, nor at the end of the device. */
  predicate EndsInside(cfg: Config)
    requires 0 < cfg.stripeBlocks
  {
    cfg.image != [] && (cfg.partialEnd || (|cfg.image| % cfg.stripeBlocks != 0 && |cfg.image| != cfg.blocks))
  }

  /**
   Only the stripe of the last block of the image can straddle its end, and it does exactly if the file ends
   inside it.
   */
  lemma StraddlesAtEnd(cfg: Config)
    requires ConfigOk(cfg)
    ensures EndsInside(cfg) <==> exists b: nat, t: nat :: Straddles(cfg, b, t)
    ensures forall b: nat, t: nat | Straddles(cfg, b, t) :: Stripe(cfg, b) == Stripe(cfg, |cfg.image| - 1)
  {
    var n, d := |cfg.image|, cfg.stripeBlocks;
    if EndsInside(cfg) {
      if cfg.partialEnd {
        assert Straddles(cfg, n - 1, n - 1);
      } else {
        LastBlockShares(n, d);
        assert Straddles(cfg, n - 1, n);
      }
    }
    forall b: nat, t: nat | Straddles(cfg, b, t)
      ensures EndsInside(cfg) && Stripe(cfg, b) == Stripe(cfg, n - 1)
    {
      SameStripe(b, t, d);
      if t >= n && n != cfg.blocks {
        AlignedStartsStripe(b, n, d);
      }
    }
  }

  /**
   Copies are exact unless the file ends inside a stripe that fits; reads are, with copy_on_read or if it
   does not end so.
   */
  lemma HarmlessMeans(cfg: Config)
    requires ConfigOk(cfg)
    ensures CopiesExact(cfg) <==>
            !EndsInside(cfg) || ((|cfg.image| - 1) / cfg.stripeBlocks + 1) * cfg.stripeBlocks > cfg.blocks
    ensures ReadsExact(cfg) <==> !EndsInside(cfg) || cfg.copyOnRead
  {
    StraddlesAtEnd(cfg);
    if EndsInside(cfg) && CopiesExact(cfg) {
      var b: nat, t: nat :| Straddles(cfg, b, t);
    }
  }

  lemma LastBlockShares(n: nat, d: nat)
    requires 0 < d && n % d != 0
    ensures 0 < n && (n - 1) / d == n / d
  {
    var q, r := n / d, n % d;
    assert n == q * d + r;
    DivUnique(n - 1, q, r - 1, d);
  }

  lemma DivUnique(a: nat, q: nat, r: nat, d: nat)
    requires 0 < d && r < d && a == q * d + r
    ensures a / d == q
  {
    var p := a / d;
    assert p * d <= a < (p + 1) * d;
    assert (q + 1) * d == q * d + d;
    MulCancels(p, q + 1, d);
    MulCancels(q, p + 1, d);
  }

  lemma AlignedStartsStripe(b: nat, n: nat, d: nat)
    requires 0 < d && b < n && b / d == n / d
    ensures n % d != 0
  {
    var q := n / d;
    assert q * d <= b;
    assert n == q * d + n % d;
  }

  // ---------------------------------------------------------------- copies and reads that go wrong

  /** Copying the stripe that straddles the end of the image overwrites an acknowledged write. */
  lemma LostWrite(cfg: Config, b: nat, t: nat, data: Data, junk: Data) returns (s: Sys)
    requires ConfigOk(cfg) && Straddles(cfg, b, t) && |cfg.image| <= t && Fits(cfg, Stripe(cfg, b))
    ensures Reachable(cfg, s) && Shape(cfg, s)
    ensures |s.reqs| > 0 && s.reqs[0].req == Request(Write, t, 1, [data]) && s.reqs[0].phase.WriteOk?
    ensures s.hist.log == [Entry(t, data)] && s.hist.epoch == 0 && Logical(cfg, s.status, s.disk.vol, t).data == junk
  {
    var x := Stripe(cfg, b);
    var s1 := AcknowledgedThenAsked(cfg, b, t, data);
    var s2 := DoFetch(cfg, s1, x);
    assert t in StripeBlocks(cfg, x);
    s := CopyOne(cfg, s1, s2, x, t, junk);
  }

  lemma AcknowledgedThenAsked(cfg: Config, b: nat, t: nat, data: Data) returns (s: Sys)
    requires ConfigOk(cfg) && b < |cfg.image| <= t < cfg.blocks
    ensures Reachable(cfg, s) && Shape(cfg, s) && |s.chans| == 1
    ensures s.chans[0].queue == [Stripe(cfg, b)] && s.chans[0].slots[0] == Free
    ensures |s.reqs| == 2 && s.reqs[0].req == Request(Write, t, 1, [data]) && s.reqs[0].phase.WriteOk?
    ensures s.hist.log == [Entry(t, data)] && s.hist.epoch == 0
  {
    s := Acknowledged(cfg, t, data);
    ImageWriteAsks(cfg, s, b);
    s := DoSubmit(cfg, s, Request(Write, b, 1, [0]));
  }

  /** Copying any straddling stripe puts leftovers of a buffer where nobody has written. */
  lemma CopiedLeftovers(cfg: Config, b: nat, t: nat, junk: Data) returns (s: Sys)
    requires ConfigOk(cfg) && Straddles(cfg, b, t) && Fits(cfg, Stripe(cfg, b))
    ensures Reachable(cfg, s) && Shape(cfg, s) && s.hist == Init(cfg).hist
    ensures Logical(cfg, s.status, s.disk.vol, t).data == junk
  {
    s := FetchedFor(cfg, b, t, junk);
  }

  lemma WholeStripeRead(cfg: Config, b: nat, t: nat)
    requires ConfigOk(cfg) && b <= t < cfg.blocks && Stripe(cfg, b) == Stripe(cfg, t)
    ensures RequestOk(cfg, Request(Read, b, t - b + 1, [])) && t in Range(Request(Read, b, t - b + 1, []))
  {
  }

  /** With copy_on_read off, a read of a block of the image is dispatched, and its poll ends or does not. */
  lemma DispatchedRead(cfg: Config, r: Request, ended: bool) returns (s: Sys)
    requires ConfigOk(cfg) && RequestOk(cfg, r) && r.kind == Read && r.start < |cfg.image| && !cfg.copyOnRead
    ensures Reachable(cfg, s) && Shape(cfg, s) && |s.chans| == 1 && s.chans[0].polling == !ended
    ensures s.chans[0].io == [] && s.chans[0].queue == [] && s.chans[0].prepared == {}
    ensures |s.reqs| == 1 && s.reqs[0].req == r && s.reqs[0].phase == Buffering(0) && s.reqs[0].chan == 0
    ensures s.status == Init(cfg).status && s.hist == Init(cfg).hist
  {
    s := FirstRequest(cfg, r);
    s := DoServe(cfg, s, true);
    if ended {
      s := DoRing(cfg, s);
    }
  }

  /** With copy_on_read off, a read across the end of the image succeeds with leftovers of its buffer. */
  lemma WrongRead(cfg: Config, b: nat, t: nat, junk: Data) returns (s: Sys)
    requires ConfigOk(cfg) && Straddles(cfg, b, t) && b <= t && !cfg.copyOnRead
    ensures Reachable(cfg, s) && Shape(cfg, s)
    ensures |s.reqs| > 0 && s.reqs[0].phase.ReadOk? && t in s.reqs[0].phase.got && s.reqs[0].phase.got[t].data == junk
    ensures s.hist.log == [] && s.hist.start == CopiedDisk(cfg) && s.hist.epoch == 0
  {
    var r := Request(Read, b, t - b + 1, []);
    WholeStripeRead(cfg, b, t);
    s := DispatchedRead(cfg, r, false);
    s := DoGetBuf(cfg, s);
    s := DoRing(cfg, s);
    s := DoImageReadDone(cfg, s, junk);
  }

  // ---------------------------------------------------------------- exactly when the bdev is a plain disk

  /** Every completed read returned what the plain disk held in its window. */
  ghost predicate ReadsPlain(s: Sys) {
    forall i, b | 0 <= i < |s.reqs| && s.reqs[i].phase.ReadOk? && b in s.reqs[i].phase.got ::
      Saw(s.hist, b, s.reqs[i].phase.got[b], s.reqs[i].phase.born, s.reqs[i].phase.end)
  }

  /** What the bdev holds is always what the plain disk holds. */
  ghost predicate ContentPlain(cfg: Config) {
    forall s | Reachable(cfg, s) :: Shape(cfg, s) && Mirrored(cfg, s.status, s.disk.vol, s.hist)
  }

  /** Copy-on-access can never be told from a copy made beforehand. */
  ghost predicate Transparent(cfg: Config) {
    ContentPlain(cfg) && forall s | Reachable(cfg, s) :: ReadsPlain(s)
  }

  lemma CopiedLeftoversShow(cfg: Config, b: nat, t: nat)
    requires ConfigOk(cfg) && Straddles(cfg, b, t) && Fits(cfg, Stripe(cfg, b))
    ensures !ContentPlain(cfg)
  {
    var s := CopiedLeftovers(cfg, b, t, CopiedDisk(cfg)[t].data + 1);
    assert Plain(s.hist.start, s.hist.log, s.hist.epoch, |s.hist.log|, t) == CopiedDisk(cfg)[t];
    assert !Mirrored(cfg, s.status, s.disk.vol, s.hist);
  }

  /** The contents are those of the plain disk if and only if no straddling stripe can be copied. */
  lemma ContentPlainIff(cfg: Config)
    requires ConfigOk(cfg)
    ensures ContentPlain(cfg) <==> CopiesExact(cfg)
  {
    if CopiesExact(cfg) {
      forall s | Reachable(cfg, s)
        ensures Shape(cfg, s) && Mirrored(cfg, s.status, s.disk.vol, s.hist)
      {
        ReachableSound(cfg, s);
      }
    } else {
      var b: nat, t: nat :| Straddles(cfg, b, t) && Fits(cfg, Stripe(cfg, b));
      CopiedLeftoversShow(cfg, b, t);
    }
  }

  lemma WrongReadShows(cfg: Config, b: nat, t: nat)
    requires ConfigOk(cfg) && Straddles(cfg, b, t) && b <= t && !cfg.copyOnRead
    ensures !Transparent(cfg)
  {
    var s := WrongRead(cfg, b, t, CopiedDisk(cfg)[t].data + 1);
    var p := s.reqs[0].phase;
    assert !Saw(s.hist, t, p.got[t], p.born, p.end);
    assert !ReadsPlain(s);
  }

  lemma HarmlessReads(cfg: Config, s: Sys)
    requires ConfigOk(cfg) && Harmless(cfg) && Reachable(cfg, s)
    ensures ReadsPlain(s)
  {
    ReachableSound(cfg, s);
    forall i, b | 0 <= i < |s.reqs| && s.reqs[i].phase.ReadOk? && b in s.reqs[i].phase.got
      ensures Saw(s.hist, b, s.reqs[i].phase.got[b], s.reqs[i].phase.born, s.reqs[i].phase.end)
    {
      assert PhaseMirrors(cfg, s.status, s.hist, s.reqs[i].req, s.reqs[i].phase);
    }
  }

  /** Copy-on-access is transparent if and only if straddling stripes can be neither copied nor read uncopied. */
  lemma TransparentIffHarmless(cfg: Config)
    requires ConfigOk(cfg)
    ensures Transparent(cfg) <==> Harmless(cfg)
  {
    ContentPlainIff(cfg);
    if Harmless(cfg) {
      forall s | Reachable(cfg, s)
        ensures ReadsPlain(s)
      {
        HarmlessReads(cfg, s);
      }
    } else if CopiesExact(cfg) {
      StraddlesAtEnd(cfg);
      var n := |cfg.image|;
      if cfg.partialEnd {
        assert Straddles(cfg, n - 1, n - 1);
        WrongReadShows(cfg, n - 1, n - 1);
      } else {
        LastBlockShares(n, cfg.stripeBlocks);
        assert Straddles(cfg, n - 1, n);
        WrongReadShows(cfg, n - 1, n);
      }
    }
  }

  // ---------------------------------------------------------------- stripes that stick out of the device

  /** A stripe with a block of the image can be fetched if and only if it lies within the device. */
  lemma FetchableIffFits(cfg: Config, b: nat)
    requires ConfigOk(cfg) && b < |cfg.image|
    ensures (exists s :: Reachable(cfg, s) && |s.status| == MAX_STRIPES && s.status[Stripe(cfg, b)] == Fetched)
            <==> (b / cfg.stripeBlocks + 1) * cfg.stripeBlocks <= cfg.blocks
  {
    if Fits(cfg, Stripe(cfg, b)) {
      var s := FetchedFor(cfg, b, b, 0);
    }
    forall s | Reachable(cfg, s) && |s.status| == MAX_STRIPES && s.status[Stripe(cfg, b)] == Fetched
      ensures Fits(cfg, Stripe(cfg, b))
    {
      ReachableSound(cfg, s);
    }
  }

  // ---------------------------------------------------------------- requests that are never completed

  /** A write that the base device refuses is lost. */
  lemma RefusedWriteLost(cfg: Config, t: nat, data: Data) returns (s: Sys)
    requires ConfigOk(cfg) && |cfg.image| <= t < cfg.blocks
    ensures Reachable(cfg, s) && |s.reqs| == 1 && s.reqs[0].req == Request(Write, t, 1, [data]) && s.reqs[0].phase.Lost?
  {
    s := DispatchedPast(cfg, t, data, false);
  }

  /** A flush whose data flush fails is lost. */
  lemma FailedFlushLost(cfg: Config, f: Request) returns (s: Sys)
    requires ConfigOk(cfg) && RequestOk(cfg, f) && f.kind == Flush && !cfg.noSync
    ensures Reachable(cfg, s) && |s.reqs| == 1 && s.reqs[0].req == f && s.reqs[0].phase.Lost?
  {
    s := FirstRequest(cfg, f);
    s := DoServe(cfg, s, true);
    s := DoDataFlushDone(cfg, s, 0, false);
  }

  /** A read whose buffer comes after the poll that dispatched it is stranded. */
  lemma LateBufferStrands(cfg: Config, r: Request) returns (s: Sys)
    requires ConfigOk(cfg) && RequestOk(cfg, r) && r.kind == Read && r.start < |cfg.image| && !cfg.copyOnRead
    ensures Reachable(cfg, s) && |s.reqs| == 1 && s.reqs[0].req == r && Stranded(s, 0)
  {
    s := DispatchedRead(cfg, r, true);
    s := DoGetBuf(cfg, s);
  }

  /** Reads can be stranded if and only if copy_on_read is off and there is an image. */
  lemma StrandableIff(cfg: Config)
    requires ConfigOk(cfg)
    ensures (exists s, i :: Reachable(cfg, s) && Stranded(s, i)) <==> !cfg.copyOnRead && cfg.image != []
  {
    if !cfg.copyOnRead && cfg.image != [] {
      var s := LateBufferStrands(cfg, Request(Read, 0, 1, []));
    }
    forall s, i | Reachable(cfg, s) && Stranded(s, i)
      ensures !cfg.copyOnRead && cfg.image != []
    {
      var ss, ls :| IsRun(cfg, ss, ls) && ss[|ls|] == s;
      RunUncopied(cfg, ss, ls, |ls|);
    }
  }

  // ---------------------------------------------------------------- stale blocks

  /**
   Stripe 0 has been fetched into the cache only, for a write that has been dispatched, and flush `f` is
   being served.
   */
  ghost predicate FlushUnderWay(cfg: Config, s: Sys, f: Request) {
    && Reachable(cfg, s) && Shape(cfg, s) && |s.reqs| == 2 && s.reqs[1].req == f
    && s.headers[0] && s.fetched == 1 && s.flushed == 0 && s.disk.dur[0] == BlankDisk(cfg).dur[0]
  }

  lemma FlushWaits(cfg: Config, f: Request) returns (s: Sys)
    requires ConfigOk(cfg) && RequestOk(cfg, f) && f.kind == Flush
    requires !cfg.writeThrough && cfg.image != [] && Fits(cfg, 0)
    ensures FlushUnderWay(cfg, s, f) && |s.chans| == 1 && s.chans[0].io == [0, 1] && s.chans[0].activeReads == 0
    ensures s.reqs[0].req == Request(Write, 0, 1, [0]) && s.status[0] == Fetched
  {
    assert Stripe(cfg, 0) == 0;
    s := FetchedFor(cfg, 0, 0, 0);
    s := DoSubmit(cfg, s, f);
  }

  lemma FlushServed(cfg: Config, f: Request) returns (s: Sys)
    requires ConfigOk(cfg) && RequestOk(cfg, f) && f.kind == Flush
    requires !cfg.writeThrough && !cfg.noSync && cfg.image != [] && Fits(cfg, 0)
    ensures FlushUnderWay(cfg, s, f) && s.reqs[1].phase == DataFlush(Range(f))
  {
    s := FlushWaits(cfg, f);
    assert Stripe(cfg, 0) == 0;
    s := DoServe(cfg, s, true);
    s := DoServe(cfg, s, true);
  }

  /** A flush that does not cover block 0 leaves it as it is on the medium. */
  lemma {:induction false} FlushedOthers(cfg: Config, s: Sys, f: Request) returns (t: Sys)
    requires FlushUnderWay(cfg, s, f) && s.reqs[1].phase.DataFlush? && 0 !in Range(f) && f.kind == Flush
    ensures FlushUnderWay(cfg, t, f) && t.reqs[1].phase == DataFlush({})
    decreases |s.reqs[1].phase.pending|
  {
    var pending := s.reqs[1].phase.pending;
    if pending == {} {
      t := s;
    } else {
      var b :| b in pending;
      assert IoShape(cfg, s.reqs[1], |s.chans|);
      t := DoFlushBlock(cfg, s, 1, b);
      t := FlushedOthers(cfg, t, f);
    }
  }

  lemma HeadersWritten(cfg: Config, s: Sys, f: Request) returns (t: Sys)
    requires FlushUnderWay(cfg, s, f) && s.reqs[1].phase == DataFlush({}) && !cfg.writeThrough
    ensures FlushUnderWay(cfg, t, f) && t.reqs[1].phase.MetaFlush? && !t.reqs[1].phase.settled
    ensures Flagged(t.disk.volMeta, 0)
  {
    t := DoDataFlushDone(cfg, s, 1, true);
    t := DoMetaApply(cfg, t, 1);
    t := DoMetaWriteDone(cfg, t, 1);
  }

  /**
   With a volatile cache, any successful flush that does not cover block 0 can be followed by a crash that
   exposes what was there on the base device before the image.
   */
  lemma StaleBlock(cfg: Config, f: Request) returns (s: Sys)
    requires ConfigOk(cfg) && !NeverStale(cfg) && RequestOk(cfg, f) && f.kind == Flush && 0 !in Range(f)
    ensures Reachable(cfg, s) && Shape(cfg, s)
    ensures |s.reqs| == 2 && s.reqs[1].req == f && s.reqs[1].phase.FlushOk?
    ensures Recovered(cfg, s.disk, 0) == Cell(cfg.base[0], -1)
  {
    s := FlushServed(cfg, f);
    s := FlushedOthers(cfg, s, f);
    s := HeadersWritten(cfg, s, f);
    s := DoMetaSettle(cfg, s, 1);
    s := DoMetaFlushDone(cfg, s, 1);
    assert Stripe(cfg, 0) == 0;
  }

  /** A crash in this state exposes only contents of the image, initial contents and block writes. */
  ghost predicate RecoversNoJunk(cfg: Config, s: Sys)
    requires Shape(cfg, s)
  {
    forall b: nat | b < cfg.blocks :: Recovered(cfg, s.disk, b).ver >= 0
  }

  /** No crash, at any moment, exposes anything else. */
  ghost predicate NothingStale(cfg: Config) {
    forall s | Reachable(cfg, s) :: Shape(cfg, s) && RecoversNoJunk(cfg, s)
  }

  lemma NeverStaleSuffices(cfg: Config, s: Sys)
    requires ConfigOk(cfg) && CopiesExact(cfg) && NeverStale(cfg) && Reachable(cfg, s)
    ensures Shape(cfg, s) && RecoversNoJunk(cfg, s)
  {
    ReachableSound(cfg, s);
    forall b: nat | b < cfg.blocks
      ensures Recovered(cfg, s.disk, b).ver >= 0
    {
      RecoversClean(cfg, s, b);
    }
  }

  /**
   If copies are exact, crashes expose nothing stale if and only if there is no volatile cache, flushes are
   ignored, there is no image, or nothing can be copied.
   */
  lemma NothingStaleIff(cfg: Config)
    requires ConfigOk(cfg) && CopiesExact(cfg)
    ensures NothingStale(cfg) <==> NeverStale(cfg)
  {
    if NeverStale(cfg) {
      forall s | Reachable(cfg, s)
        ensures Shape(cfg, s) && RecoversNoJunk(cfg, s)
      {
        NeverStaleSuffices(cfg, s);
      }
    } else {
      var f := Request(Flush, 0, 0, []);
      assert Range(f) == {};
      var s := StaleBlock(cfg, f);
      assert !RecoversNoJunk(cfg, s);
    }
  }
}
