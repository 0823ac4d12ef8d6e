/** One I/O channel: submission, the poller and the callbacks, as steps of the protocol. */
module Channel {
  import opened Types
  import opened Protocol
  import opened Resources
  import opened Runs
  import opened Traces
  import opened StripeQueue
  import opened Bdev
  import opened Polling

  /** An entry of `stripe_fetches`. */
  datatype StripeFetch = StripeFetch(active: bool, stripe: nat)

  /** `blocks` are the blocks of a request, from its first to its last. */
  ghost predicate AllOf(blocks: set<nat>, req: Request) {
    forall b: nat :: b in blocks <==> req.start <= b < req.start + req.count
  }

  /** Where a read goes once it has a buffer. */
  datatype Route = ToBase | ToImage | Failing

  /** How the poller starts to serve a request. */
  datatype Action = GetBuffer | WriteBase | FlushBase | CompleteNow(ok: bool)

  /** `io` lists the requests `ids` of `reqs`. */
  ghost predicate Lists(io: seq<BdevIo>, ids: seq<nat>, reqs: seq<Io>) {
    && |io| == |ids|
    && forall k | 0 <= k < |io| :: io[k].id == ids[k] && ids[k] < |reqs| && io[k].req == reqs[ids[k]].req
  }

  predicate FetchOf(f: StripeFetch, slot: Slot) {
    (f.active <==> slot != Free) && (f.active ==> f.stripe == slot.stripe)
  }

  ghost predicate FetchesOf(fs: seq<StripeFetch>, slots: seq<Slot>) {
    |fs| == |slots| == MAX_STRIPE_FETCHES && forall k | 0 <= k < |fs| :: FetchOf(fs[k], slots[k])
  }

  /** `free` lists the idle entries of `fs`, each once and in order. */
  ghost predicate Idle(fs: seq<StripeFetch>, free: seq<nat>) {
    && (forall j | 0 <= j < |free| :: free[j] < |fs| && !fs[free[j]].active)
    && (forall i, j | 0 <= i < j < |free| :: free[i] < free[j])
    && (forall k: nat | k < |fs| && !fs[k].active :: k in free)
  }

  /** From position `i` on, `free` lists the idle entries of `fs`. */
  ghost predicate IdleFrom(fs: seq<StripeFetch>, free: seq<nat>, i: nat) {
    i <= |free| && Idle(fs, free[i..])
  }

  lemma IdleHere(fs: seq<StripeFetch>, free: seq<nat>, i: nat)
    requires IdleFrom(fs, free, i) && i < |free|
    ensures free[i] < |fs| && !fs[free[i]].active
  {
    assert free[i..][0] == free[i];
  }

  lemma IdleNext(fs: seq<StripeFetch>, fs': seq<StripeFetch>, free: seq<nat>, i: nat)
    requires i < |free| && IdleFrom(fs, free, i)
    requires free[i] < |fs| == |fs'| && fs' == fs[free[i] := fs'[free[i]]] && fs'[free[i]].active
    ensures IdleFrom(fs', free, i + 1)
  {
    var tail := free[i..];
    assert free[i + 1..] == tail[1..] && tail[0] == free[i];
    forall k: nat | k < |fs'| && !fs'[k].active
      ensures k in tail[1..]
    {
      assert k in tail && k != tail[0];
    }
  }

  /** A front of the list of idle entries. */
  lemma FirstIdle(fs: seq<StripeFetch>, slots: seq<Slot>, free: seq<nat>, n: nat)
    requires FetchesOf(fs, slots) && IdleFrom(fs, free, 0) && n <= |free|
    ensures FirstFree(slots, free[..n])
  {
    assert free[0..] == free;
    forall j, k: nat | 0 <= j < n && k < free[j] && k < |slots| && slots[k] == Free
      ensures k in free[..n]
    {
      assert FetchOf(fs[k], slots[k]);
      var i :| 0 <= i < |free| && free[i] == k;
      assert free[..n][i] == k;
    }
  }

  lemma AllActive(fs: seq<StripeFetch>, free: seq<nat>, slots: seq<Slot>)
    requires FetchesOf(fs, slots) && IdleFrom(fs, free, |free|)
    ensures forall k | 0 <= k < |slots| :: slots[k] != Free
  {
    forall k | 0 <= k < |slots|
      ensures slots[k] != Free
    {
      assert FetchOf(fs[k], slots[k]);
    }
  }

  /**
   What submission does. A write, or with copy_on_read a read, is refused if its first and last blocks lie in
   different stripes; else, if it starts in the image and nobody has asked for its stripe yet, it asks. Block numbers
   are 64 bits wide, so that an empty request at block 0 ends at the largest of them.
   */
  ghost predicate Entered(cfg: Config, req: Request, status: seq<Status>, status': seq<Status>, queue: seq<nat>,
                          queue': seq<nat>, accepted: bool) {
    && 0 < cfg.stripeBlocks
    && var last := if req.start + req.count == 0 then 0xFFFF_FFFF_FFFF_FFFF else req.start + req.count - 1;
       var x, copies := req.start / cfg.stripeBlocks, req.kind == Write || (req.kind == Read && cfg.copyOnRead);
       && (accepted <==> !copies || x == last / cfg.stripeBlocks)
       && if accepted && copies && req.start < |cfg.image| && x < |status| && status[x] == NotFetched then
            status' == status[x := Inflight] && queue' == if |queue| < 32767 then queue + [x] else []
          else
            status' == status && queue' == queue
  }

  class IoChannel {
    const bdev: UbiBdev
    const queue: Queue
    const fetches: array<StripeFetch>
    var io: seq<BdevIo>
    var activeReads: int
    var hasReads: nat
    var stripesFetched: nat

    ghost predicate Valid()
      reads this, queue
    {
      bdev.Valid() && queue.Valid() && fetches.Length == MAX_STRIPE_FETCHES && queue.entries.Length == FETCH_QUEUE_SIZE
    }

    /** The fields of this object are those of `ch`. */
    ghost predicate Mirrors(ch: Chan, reqs: seq<Io>)
      reads this, queue, queue.entries, fetches
    {
      && Valid()
      && ch.queue == queue.Contents() && FetchesOf(fetches[..], ch.slots)
      && Lists(io, ch.io, reqs) && ch.activeReads == activeReads && ch.started == stripesFetched
      && (ch.prepared != {} ==> hasReads > 0)
    }

    /** This object is channel `c` of the state `s`, and its bdev holds the state shared in `s`. */
    ghost predicate Tracks(s: Sys, c: nat)
      reads this, queue, queue.entries, fetches, bdev, bdev.stripeStatus, bdev.stripeHeaders
    {
      c < |s.chans| && bdev.Tracks(s) && Mirrors(s.chans[c], s.reqs)
    }

    /** A poll of another channel of the bdev leaves this one as it was. */
    lemma Undisturbed(s: Sys, t: Sys, c: nat, d: nat)
      requires d < |s.chans| && Mirrors(s.chans[d], s.reqs) && Kept(s, t, c) && c != d && bdev.Tracks(t)
      ensures Tracks(t, d)
    {
      assert t.chans[d] == s.chans[d];
    }

    /** `ubi_create_channel_cb`. */
    constructor (bdev: UbiBdev)
      requires bdev.Valid()
      ensures this.bdev == bdev && fresh(queue) && fresh(queue.entries) && fresh(fetches)
      ensures Valid() && hasReads == 0
      ensures forall reqs: seq<Io> :: Mirrors(EmptyChan(), reqs)
    {
      this.bdev := bdev;
      queue := new Queue();
      fetches := new StripeFetch[MAX_STRIPE_FETCHES](_ => StripeFetch(false, 0));
      io, activeReads, hasReads, stripesFetched := [], 0, 0, 0;
    }

    /** `ubi_submit_request`; a request that is not accepted completes with a failure. */
    method SubmitRequest(bio: BdevIo, ghost s: Sys, ghost c: nat) returns (accepted: bool)
      requires Tracks(s, c) && Reachable(bdev.cfg, s) && RequestOk(bdev.cfg, bio.req) && bio.id == |s.reqs|
      modifies this`io, queue`tail, queue.entries, bdev.stripeStatus, bdev.stripeHeaders
      ensures Shape(bdev.cfg, s) && Took(bdev.cfg, s, [Submit(c, bio.req)], SubmitStep(bdev.cfg, s, c, bio.req))
      ensures Tracks(SubmitStep(bdev.cfg, s, c, bio.req), c)
      ensures io == if accepted then old(io) + [bio] else old(io)
      ensures accepted <==> !(Fetching(bdev.cfg, bio.req) && Spans(bdev.cfg, bio.req))
      ensures Entered(bdev.cfg, bio.req, old(bdev.stripeStatus[..]), bdev.stripeStatus[..], old(queue.Contents()),
                      queue.Contents(), accepted)
    {
      ReachableShape(bdev.cfg, s);
      TookSubmit(bdev.cfg, s, c, bio.req);
      accepted := Enter(bio, s, c);
    }

    /** The body of `SubmitRequest`. */
    method Enter(bio: BdevIo, ghost s: Sys, ghost c: nat) returns (accepted: bool)
      requires Tracks(s, c) && bio.id == |s.reqs| && bio.req.start < bdev.cfg.blocks
      requires |s.disk.vol| == bdev.cfg.blocks
      requires forall b: nat | b < bdev.cfg.blocks :: Stripe(bdev.cfg, b) < |s.status|
      modifies this`io, queue`tail, queue.entries, bdev.stripeStatus, bdev.stripeHeaders
      ensures Tracks(SubmitStep(bdev.cfg, s, c, bio.req), c)
      ensures io == if accepted then old(io) + [bio] else old(io)
      ensures accepted <==> !(Fetching(bdev.cfg, bio.req) && Spans(bdev.cfg, bio.req))
      ensures Entered(bdev.cfg, bio.req, old(bdev.stripeStatus[..]), bdev.stripeStatus[..], old(queue.Contents()),
                      queue.Contents(), accepted)
    {
      var req := bio.req;
      if req.kind == Write || (req.kind == Read && bdev.cfg.copyOnRead) {
        var startStripe, endStripe := Stripe(bdev.cfg, req.start), Stripe(bdev.cfg, EndBlock(req));
        if startStripe != endStripe {
          return false;
        }
        if req.start < |bdev.cfg.image| && bdev.stripeStatus[startStripe] == NotFetched {
          queue.Enqueue(startStripe);
          bdev.SetStripeStatus(startStripe, Inflight);
        }
      }
      io := io + [bio];
      return true;
    }

    // ---------------------------------------------------------------- callbacks

    /** `ubi_fail_stripe_fetch`. */
    method FailStripeFetch(k: nat, ghost s: Sys, ghost c: nat)
      requires Tracks(s, c) && k < MAX_STRIPE_FETCHES && s.chans[c].slots[k].Reading?
      requires s.chans[c].slots[k].stripe < MAX_STRIPES
      modifies fetches, bdev.stripeStatus, bdev.stripeHeaders
      ensures Tracks(FetchReadStep(bdev.cfg, s, c, k, false), c)
    {
      assert FetchOf(fetches[..][k], s.chans[c].slots[k]);
      bdev.SetStripeStatus(fetches[k].stripe, Failed);
      fetches[k] := fetches[k].(active := false);
    }

    /** `ubi_complete_fetch_stripe`: the image was read; `ret` answers the write to the base device. */
    method CompleteFetchStripe(k: nat, res: int, ret: int, ghost s: Sys, ghost c: nat) returns (r: int)
      requires Tracks(s, c) && k < MAX_STRIPE_FETCHES && s.chans[c].slots[k].Reading?
      requires s.chans[c].slots[k].stripe < MAX_STRIPES
      modifies fetches, bdev.stripeStatus, bdev.stripeHeaders
      ensures Tracks(FetchReadStep(bdev.cfg, s, c, k, res >= 0 && ret == 0), c)
      ensures r == if res >= 0 && ret == 0 then 1 else -1
    {
      if res < 0 || ret != 0 {
        FailStripeFetch(k, s, c);
        return -1;
      }
      return 1;
    }

    /** `write_stripe_io_completion`: the outcome of the write is not looked at. */
    method WriteStripeCompletion(k: nat, ghost s: Sys, ghost c: nat)
      requires Tracks(s, c) && Reachable(bdev.cfg, s) && Shape(bdev.cfg, s) && Enabled(bdev.cfg, s, FetchDone(c, k))
      modifies fetches, bdev`stripesFetched, bdev.stripeStatus, bdev.stripeHeaders
      ensures s.chans[c].slots[k].stripe < MAX_STRIPES && Tracks(FetchDoneStep(s, c, k), c)
      ensures Took(bdev.cfg, s, [FetchDone(c, k)], FetchDoneStep(s, c, k))
    {
      TookFetchDone(bdev.cfg, s, c, k);
      assert FetchOf(fetches[..][k], s.chans[c].slots[k]);
      bdev.SetStripeStatus(fetches[k].stripe, Fetched);
      bdev.stripesFetched := bdev.stripesFetched + 1;
      fetches[k] := fetches[k].(active := false);
    }

    /** `ubi_complete_io`, without the completion itself. */
    method CompleteIo(bio: BdevIo)
      modifies this`activeReads
      ensures activeReads == if bio.req.kind == Read then old(activeReads) - 1 else old(activeReads)
    {
      if bio.req.kind == Read {
        activeReads := activeReads - 1;
      }
    }

    /** `ubi_complete_read_from_image`. */
    method CompleteReadFromImage(bio: BdevIo, res: int, ghost junk: Data, ghost s: Sys, ghost c: nat) returns (r: int)
      requires Tracks(s, c) && bio.req.kind == Read
      requires bio.id < |s.reqs| && s.reqs[bio.id].chan == c && s.reqs[bio.id].phase.ImageRead?
      modifies this`activeReads
      ensures Tracks(ImageReadDoneStep(bdev.cfg, s, bio.id, res >= 0, junk), c)
      ensures r == if res >= 0 then 1 else -1
    {
      CompleteIo(bio);
      r := if res < 0 then -1 else 1;
    }

    method CompleteBaseRead(bio: BdevIo, success: bool, ghost s: Sys, ghost c: nat)
      requires Tracks(s, c) && bio.req.kind == Read
      requires bio.id < |s.reqs| && s.reqs[bio.id].chan == c && s.reqs[bio.id].phase.BaseRead?
      modifies this`activeReads
      ensures Tracks(BaseReadDoneStep(s, bio.id, success), c)
    {
      CompleteIo(bio);
    }

    method CompleteWrite(bio: BdevIo, success: bool, ghost s: Sys, ghost c: nat)
      requires Tracks(s, c) && bio.req.kind == Write && bio.id < |s.reqs| && s.reqs[bio.id].phase.Writing?
      modifies this`activeReads
      ensures Tracks(WriteDoneStep(s, bio.id, success), c)
    {
      CompleteIo(bio);
    }

    /** `ubi_io_completion_cb`. */
    method IoCompletion(bio: BdevIo, success: bool, ghost s: Sys, ghost c: nat)
      requires Tracks(s, c) && bio.id < |s.reqs| && s.reqs[bio.id].req == bio.req && s.reqs[bio.id].chan == c
      requires Reachable(bdev.cfg, s) && Shape(bdev.cfg, s) && bio.req.kind != Flush
      requires if bio.req.kind == Read then Enabled(bdev.cfg, s, BaseReadDone(bio.id, success))
               else Enabled(bdev.cfg, s, WriteDone(bio.id, success))
      modifies this`activeReads
      ensures if bio.req.kind == Read then
                && Tracks(BaseReadDoneStep(s, bio.id, success), c)
                && Took(bdev.cfg, s, [BaseReadDone(bio.id, success)], BaseReadDoneStep(s, bio.id, success))
              else
                && Tracks(WriteDoneStep(s, bio.id, success), c)
                && Took(bdev.cfg, s, [WriteDone(bio.id, success)], WriteDoneStep(s, bio.id, success))
    {
      if bio.req.kind == Read {
        TookBaseReadDone(bdev.cfg, s, bio.id, success);
        CompleteBaseRead(bio, success, s, c);
      } else {
        TookWriteDone(bdev.cfg, s, bio.id, success);
        CompleteWrite(bio, success, s, c);
      }
    }

    /** The body of `GetBufForRead`. */
    method RouteRead(bio: BdevIo, success: bool, ret: int, sqe: bool, ghost s: Sys, ghost c: nat) returns (route: Route)
      requires Tracks(s, c) && bio.id < |s.reqs| && s.reqs[bio.id].req == bio.req && s.reqs[bio.id].chan == c
      requires bio.req.kind == Read && s.reqs[bio.id].phase.Buffering? && Stripe(bdev.cfg, bio.req.start) < MAX_STRIPES
      requires sqe <==> RingEntries(s, c) < URING_QUEUE_SIZE
      modifies this`activeReads, this`hasReads
      ensures Tracks(GetBufStep(bdev.cfg, s, bio.id, success, ret == 0), c)
      ensures var p := GetBufStep(bdev.cfg, s, bio.id, success, ret == 0).reqs[bio.id].phase;
              match route
              case ToBase => p.BaseRead? && p.got == map[] && AllOf(p.pending, bio.req)
              case ToImage => p.ImageRead?
              case Failing => p.Error?
      ensures hasReads == if route.ToImage? then old(hasReads) + 1 else old(hasReads)
    {
      if !success {
        CompleteIo(bio);
        return Failing;
      }
      var status := bdev.stripeStatus[Stripe(bdev.cfg, bio.req.start)];
      if status == Fetched || bio.req.start >= |bdev.cfg.image| {
        if ret != 0 {
          CompleteIo(bio);
          return Failing;
        }
        return ToBase;
      }
      if !sqe {
        CompleteIo(bio);
        return Failing;
      }
      hasReads := hasReads + 1;
      return ToImage;
    }

    /** `get_buf_for_read_cb`; `ret` answers the read of the base device and `sqe` says if the io_uring had an entry. */
    method GetBufForRead(bio: BdevIo, success: bool, ret: int, sqe: bool, ghost s: Sys, ghost c: nat)
      returns (route: Route)
      requires Tracks(s, c) && bio.id < |s.reqs| && s.reqs[bio.id].req == bio.req && s.reqs[bio.id].chan == c
      requires Reachable(bdev.cfg, s) && Shape(bdev.cfg, s) && bio.req.kind == Read && s.reqs[bio.id].phase.Buffering?
      requires sqe <==> RingEntries(s, c) < URING_QUEUE_SIZE
      modifies this`activeReads, this`hasReads
      ensures Tracks(GetBufStep(bdev.cfg, s, bio.id, success, ret == 0), c)
      ensures Took(bdev.cfg, s, [GetBuf(bio.id, success, ret == 0)], GetBufStep(bdev.cfg, s, bio.id, success, ret == 0))
      ensures var p := GetBufStep(bdev.cfg, s, bio.id, success, ret == 0).reqs[bio.id].phase;
              match route
              case ToBase => p.BaseRead? && p.got == map[] && AllOf(p.pending, bio.req)
              case ToImage => p.ImageRead?
              case Failing => p.Error?
      ensures hasReads == if route.ToImage? then old(hasReads) + 1 else old(hasReads)
    {
      StartInTable(bdev.cfg, s, bio.id);
      TookAlone(bdev.cfg, s, bio.id, success, ret == 0);
      route := RouteRead(bio, success, ret, sqe, s, c);
    }

    // ---------------------------------------------------------------- the poller

    /** One completion of a batch. */
    method CompleteOne(e: Cqe, ghost s: Sys, ghost c: nat) returns (ret: int)
      requires Tracks(s, c) && Shape(bdev.cfg, s) && Deliverable(bdev.cfg, s, c, e)
      modifies this`activeReads, fetches, bdev.stripeStatus, bdev.stripeHeaders
      ensures Tracks(Handled(bdev.cfg, s, c, e), c)
      ensures ret == if EndedWell(e) then 1 else -1
    {
      assert ChanShape(bdev.cfg, s.chans[c], |s.reqs|);
      match e
      case OfStripe(k, res, r) =>
        assert SlotShape(bdev.cfg, s.chans[c].slots[k]);
        ret := CompleteFetchStripe(k, res, r, s, c);
      case OfIo(bio, res, junk) =>
        assert IoShape(bdev.cfg, s.reqs[bio.id], |s.chans|);
        ret := CompleteReadFromImage(bio, res, junk, s, c);
    }

    /** `ubi_complete_image_io`: the result is that of the last completion alone. */
    method CompleteImageIo(batch: int, cqes: seq<Cqe>, ghost s: Sys, ghost c: nat)
      returns (ret: int, ghost ls: seq<Label>, ghost t: Sys)
      requires Tracks(s, c) && Reachable(bdev.cfg, s) && Delivered(bdev.cfg, s, c, batch, cqes)
      modifies this`activeReads, fetches, bdev.stripeStatus, bdev.stripeHeaders
      ensures Tracks(t, c) && CompletedFirst(bdev.cfg, s, ls, t, c, cqes, |cqes|)
      ensures ret == if batch < 0 then (if batch == -11 then 0 else -1) else ResultOf(cqes, |cqes|)
    {
      ret, ls, t := 0, [], s;
      PollsNone(bdev.cfg, s, c);
      if batch == -EAGAIN {
        return;
      } else if batch < 0 {
        ret := -1;
        return;
      }
      for i := 0 to batch
        invariant Tracks(t, c) && CompletedFirst(bdev.cfg, s, ls, t, c, cqes, i)
        invariant ret == ResultOf(cqes, i)
      {
        CompletedMore(bdev.cfg, s, ls, t, c, cqes, i);
        ghost var u := t;
        ret := CompleteOne(cqes[i], u, c);
        ls, t := ls + [LabelOf(c, cqes[i])], Handled(bdev.cfg, u, c, cqes[i]);
      }
    }

    /** The list of idle entries of `stripe_fetches`. */
    method FreeFetches() returns (free: seq<nat>)
      requires Valid()
      ensures IdleFrom(fetches[..], free, 0)
    {
      free := [];
      for i := 0 to MAX_STRIPE_FETCHES
        invariant forall j | 0 <= j < |free| :: free[j] < i && !fetches[free[j]].active
        invariant forall j, k | 0 <= j < k < |free| :: free[j] < free[k]
        invariant forall k: nat | k < i && !fetches[k].active :: k in free
      {
        if !fetches[i].active {
          free := free + [i];
        }
      }
    }

    /** The oldest queued stripe goes to entry `k`, and its fetch starts. */
    method StartFetchStripe(k: nat, ghost s: Sys, ghost c: nat)
      requires Tracks(s, c) && k < MAX_STRIPE_FETCHES && s.chans[c].queue != []
      modifies this`stripesFetched, queue`head, fetches
      ensures Tracks(StartFetchStep(s, c, k), c)
      ensures fetches[k].active && fetches[..] == old(fetches[..])[k := fetches[k]]
    {
      var x := queue.Dequeue();
      fetches[k] := StripeFetch(true, x);
      stripesFetched := stripesFetched + 1;
    }

    /** One turn of the loop over queued stripes. */
    method StartNext(free: seq<nat>, i: nat, ghost s: Sys, ghost ls: seq<Label>, ghost u: Sys, ghost ms: seq<Label>,
                     ghost v: Sys, ghost c: nat)
      requires Tracks(v, c) && i < |free| && IdleFrom(fetches[..], free, i) && v.chans[c].queue != []
      requires Starting(bdev.cfg, s, ls, u, ms, v, c, free[..i])
      modifies this`stripesFetched, queue`head, fetches
      ensures free[i] < MAX_STRIPE_FETCHES && Tracks(StartFetchStep(v, c, free[i]), c)
      ensures IdleFrom(fetches[..], free, i + 1)
      ensures var t := StartFetchStep(v, c, free[i]);
              Starting(bdev.cfg, s, ls, u, ms + [StartFetch(c, free[i])], t, c, free[..i + 1])
    {
      IdleHere(fetches[..], free, i);
      ghost var was := fetches[..];
      assert FetchOf(was[free[i]], v.chans[c].slots[free[i]]);
      StartingMore(bdev.cfg, s, ls, u, ms, v, c, free, i);
      StartFetchStripe(free[i], v, c);
      IdleNext(was, fetches[..], free, i);
    }

    /** Hands queued stripes to idle entries, oldest first, until one or the other runs out. */
    method StartFetches(ghost s: Sys, ghost ls: seq<Label>, ghost u: Sys, ghost c: nat)
      returns (ghost used: seq<nat>, ghost ms: seq<Label>, ghost t: Sys)
      requires Tracks(u, c) && Polls(bdev.cfg, s, ls, u, c)
      modifies this`stripesFetched, queue`head, fetches
      ensures Tracks(t, c) && Starting(bdev.cfg, s, ls, u, ms, t, c, used)
      ensures FirstFree(u.chans[c].slots, used) && AllStarted(t.chans[c])
    {
      var free := FreeFetches();
      ghost var was := fetches[..];
      var i := 0;
      ms, t := ls, u;
      while i < |free| && queue.head != queue.tail
        invariant i <= |free| && IdleFrom(fetches[..], free, i)
        invariant Tracks(t, c) && Starting(bdev.cfg, s, ls, u, ms, t, c, free[..i])
      {
        StartNext(free, i, s, ls, u, ms, t, c);
        ms, t := ms + [StartFetch(c, free[i])], StartFetchStep(t, c, free[i]);
        i := i + 1;
      }
      used := free[..i];
      FirstIdle(was, u.chans[c].slots, free, i);
      if i == |free| {
        AllActive(fetches[..], free, t.chans[c].slots);
      }
    }

    /** What the poller does with the first waiting request. */
    method Examine(bio: BdevIo) returns (v: Verdict)
      requires Valid() && Stripe(bdev.cfg, bio.req.start) < MAX_STRIPES
      ensures v == Decide(bdev.cfg, bdev.stripeStatus[..], activeReads, bio.req)
      ensures Decided(bdev.cfg, bdev.stripeStatus[..], activeReads, bio.req, v)
    {
      if bio.req.kind == Read && activeReads >= MAX_CONCURRENT_READS {
        return AtReadLimit;
      }
      if bio.req.kind != Flush && bio.req.start < |bdev.cfg.image| {
        var status := bdev.stripeStatus[Stripe(bdev.cfg, bio.req.start)];
        if status == Failed {
          return Refused;
        } else if status == Inflight {
          return Blocked;
        } else if status == NotFetched && (bio.req.kind != Read || bdev.cfg.copyOnRead) {
          return Unexpected;
        }
      }
      return Servable;
    }

    /**
     Takes the first request off the list and starts serving it; `accepted` answers the operation on the
     base device.
     */
    method Dispatch(accepted: bool, ghost s: Sys, ghost c: nat) returns (action: Action)
      requires Tracks(s, c) && s.chans[c].io != [] && s.chans[c].io[0] < |s.reqs|
      modifies this`io, this`activeReads
      ensures Tracks(ServeStep(bdev.cfg, s, c, accepted), c)
      ensures io == old(io)[1..]
      ensures var p := ServeStep(bdev.cfg, s, c, accepted).reqs[s.chans[c].io[0]].phase;
              match action
              case GetBuffer => p.Buffering?
              case WriteBase =>
                if accepted then p.Writing? && p.vers == map[] && AllOf(p.pending, old(io)[0].req) else p.Lost?
              case FlushBase => p.DataFlush? && AllOf(p.pending, old(io)[0].req)
              case CompleteNow(ok) => if ok then p.FlushSkipped? else p.Error?
    {
      var bio := io[0];
      io := io[1..];
      match bio.req.kind
      case Read =>
        activeReads := activeReads + 1;
        action := GetBuffer;
      case Write =>
        action := WriteBase;
      case Flush =>
        action := if bdev.cfg.noSync then CompleteNow(true) else if accepted then FlushBase else CompleteNow(false);
    }

    /** Takes the first request off the list and completes it with a failure. */
    method FailHead(v: Verdict, ghost accepts: nat -> bool, ghost buffers: nat -> Buffer, ghost s: Sys,
                    ghost ls: seq<Label>, ghost u: Sys, ghost c: nat)
      returns (ghost ms: seq<Label>, ghost t: Sys)
      requires Tracks(u, c) && Polls(bdev.cfg, s, ls, u, c)
      requires HeadIs(bdev.cfg, u, c, v) && (v.Refused? || v.Unexpected?)
      modifies this`io
      ensures Tracks(t, c) && Polls(bdev.cfg, s, ms, t, c) && ls <= ms
      ensures ServesHead(bdev.cfg, u, t, c, accepts, buffers) && io == old(io)[1..]
    {
      PollFails(bdev.cfg, s, ls, u, c, v);
      RejectServes(bdev.cfg, u, c, accepts, buffers);
      ms, t := ls + [if v.Refused? then Reject(c) else Bug(c)], RejectStep(u, c);
      io := io[1..];
    }

    /** A read is taken off the list; its buffer is there, so that `get_buf_for_read_cb` is called at once. */
    method DispatchRead(accepted: bool, buffer: Buffer, ghost s: Sys, ghost t: Sys, ghost c: nat)
      requires Tracks(s, c) && s.chans[c].io != [] && io[0].req.kind == Read && buffer.Now?
      requires io[0].id < |s.reqs| == |t.reqs| && t == ServeStep(bdev.cfg, s, c, accepted)
      requires t.reqs[io[0].id].req == io[0].req && t.reqs[io[0].id].chan == c && t.reqs[io[0].id].phase.Buffering?
      requires Stripe(bdev.cfg, io[0].req.start) < MAX_STRIPES && RingEntries(t, c) < URING_QUEUE_SIZE
      modifies this`io, this`activeReads, this`hasReads
      ensures Tracks(GetBufStep(bdev.cfg, t, old(io)[0].id, buffer.ok, buffer.ret == 0), c)
      ensures io == old(io)[1..] && hasReads >= old(hasReads)
    {
      var bio := io[0];
      var action := Dispatch(accepted, s, c);
      var route := RouteRead(bio, buffer.ok, buffer.ret, true, t, c);
    }

    /** The first request is a read and gets its buffer at once. */
    method ServeBuffered(accepts: nat -> bool, buffers: nat -> Buffer, ghost s: Sys, ghost ls: seq<Label>, ghost u: Sys,
                         ghost c: nat)
      returns (ghost ms: seq<Label>, ghost t: Sys)
      requires io != [] && Tracks(u, c) && Polls(bdev.cfg, s, ls, u, c) && HeadIs(bdev.cfg, u, c, Servable)
      requires io[0].req.kind == Read && buffers(io[0].id).Now?
      modifies this`io, this`activeReads, this`hasReads
      ensures Tracks(t, c) && Polls(bdev.cfg, s, ms, t, c) && ls <= ms
      ensures ServesHead(bdev.cfg, u, t, c, accepts, buffers) && io == old(io)[1..] && hasReads >= old(hasReads)
    {
      var i := io[0].id;
      ghost var v := ServeStep(bdev.cfg, u, c, accepts(i));
      AfterBuffer(bdev.cfg, s, ls, u, c, accepts, buffers);
      DispatchRead(accepts(i), buffers(i), u, v, c);
      ms := ls + [Serve(c, accepts(i)), GetBuf(i, buffers(i).ok, buffers(i).ret == 0)];
      t := GetBufStep(bdev.cfg, v, i, buffers(i).ok, buffers(i).ret == 0);
    }

    /** The first request is served, up to the arrival of a buffer. */
    method ServePlain(accepts: nat -> bool, buffers: nat -> Buffer, ghost s: Sys, ghost ls: seq<Label>, ghost u: Sys,
                      ghost c: nat)
      returns (ghost ms: seq<Label>, ghost t: Sys)
      requires io != [] && Tracks(u, c) && Polls(bdev.cfg, s, ls, u, c) && HeadIs(bdev.cfg, u, c, Servable)
      requires io[0].req.kind == Read ==> buffers(io[0].id).Later?
      modifies this`io, this`activeReads
      ensures Tracks(t, c) && Polls(bdev.cfg, s, ms, t, c) && ls <= ms
      ensures ServesHead(bdev.cfg, u, t, c, accepts, buffers) && io == old(io)[1..]
    {
      ghost var i := io[0].id;
      PollServes(bdev.cfg, s, ls, u, c, accepts(i));
      DispatchServes(bdev.cfg, u, c, accepts, buffers);
      var action := Dispatch(accepts(io[0].id), u, c);
      ms, t := ls + [Serve(c, accepts(i))], ServeStep(bdev.cfg, u, c, accepts(i));
    }

    /** One turn of the loop over waiting requests. */
    method ServeNext(accepts: nat -> bool, buffers: nat -> Buffer, ghost s: Sys, ghost ls: seq<Label>, ghost u: Sys,
                     ghost c: nat)
      returns (more: bool, ghost ms: seq<Label>, ghost t: Sys)
      requires io != [] && Tracks(u, c) && Polls(bdev.cfg, s, ls, u, c)
      modifies this`io, this`activeReads, this`hasReads
      ensures Tracks(t, c) && Polls(bdev.cfg, s, ms, t, c) && ls <= ms && hasReads >= old(hasReads)
      ensures if more then io == old(io)[1..] && ServesHead(bdev.cfg, u, t, c, accepts, buffers)
              else io == old(io) && t == u && AllServed(bdev.cfg, u, c)
    {
      HeadOf(bdev.cfg, u, c);
      var v := Examine(io[0]);
      assert HeadIs(bdev.cfg, u, c, v);
      more, ms, t := false, ls, u;
      match v
      case AtReadLimit =>
        HeadWaits(bdev.cfg, u, c);
      case Blocked =>
        HeadWaits(bdev.cfg, u, c);
      case Refused =>
        more := true;
        ms, t := FailHead(v, accepts, buffers, s, ls, u, c);
      case Unexpected =>
        more := true;
        ms, t := FailHead(v, accepts, buffers, s, ls, u, c);
      case Servable =>
        more := true;
        if io[0].req.kind == Read && buffers(io[0].id).Now? {
          ms, t := ServeBuffered(accepts, buffers, s, ls, u, c);
        } else {
          ms, t := ServePlain(accepts, buffers, s, ls, u, c);
        }
    }

    /** Serves waiting requests in order until none is left or the first one has to wait. */
    method ServeRequests(accepts: nat -> bool, buffers: nat -> Buffer, ghost s: Sys, ghost ls: seq<Label>,
                         ghost u: Sys, ghost c: nat)
      returns (ghost k: nat, ghost ms: seq<Label>, ghost t: Sys)
      requires Tracks(u, c) && Polls(bdev.cfg, s, ls, u, c) && Began(u.chans[c])
      modifies this`io, this`activeReads, this`hasReads
      ensures Tracks(t, c) && Polls(bdev.cfg, s, ms, t, c) && ls <= ms && Began(t.chans[c])
      ensures Served(bdev.cfg, u, t, c, k, accepts, buffers) && AllServed(bdev.cfg, t, c)
      ensures t.chans[c].queue == u.chans[c].queue && t.chans[c].slots == u.chans[c].slots && hasReads >= old(hasReads)
    {
      k, ms, t := 0, ls, u;
      ListWaits(bdev.cfg, u, c);
      while io != []
        invariant Tracks(t, c) && Polls(bdev.cfg, s, ms, t, c) && ls <= ms && Began(t.chans[c])
        invariant Served(bdev.cfg, u, t, c, k, accepts, buffers)
        invariant t.chans[c].queue == u.chans[c].queue && t.chans[c].slots == u.chans[c].slots
        invariant hasReads >= old(hasReads)
        decreases |io|
      {
        ghost var v := t;
        var more;
        more, ms, t := ServeNext(accepts, buffers, s, ms, v, c);
        if !more {
          return;
        }
        ServedMore(bdev.cfg, u, v, t, c, k, accepts, buffers);
        k := k + 1;
      }
    }

    /** The end of a poll that found work; `submitted` answers the submission of the prepared reads. */
    method EndPoll(submitted: int, ghost s: Sys, ghost ls: seq<Label>, ghost u: Sys, ghost c: nat)
      returns (ghost ms: seq<Label>, ghost t: Sys)
      requires Tracks(u, c) && Polls(bdev.cfg, s, ls, u, c) && Began(u.chans[c])
      modifies this`hasReads
      ensures Tracks(t, c) && Polls(bdev.cfg, s, ms, t, c) && ls <= ms
      ensures t == u.(chans := u.chans[c := t.chans[c]])
      ensures t.chans[c] == u.chans[c].(polling := false, prepared := if submitted < 0 then u.chans[c].prepared else {})
      ensures hasReads == if submitted < 0 then old(hasReads) else 0
    {
      ms, t := ls, u;
      if u.chans[c].polling || u.chans[c].prepared != {} {
        PollRings(bdev.cfg, s, ls, u, c, submitted >= 0);
        ms, t := ls + [Ring(c, submitted >= 0)], RingStep(u, c, submitted >= 0);
      }
      if hasReads > 0 && submitted >= 0 {
        hasReads := 0;
      }
    }

    /** The poller after its completions, with something in its lists. */
    method Work(accepts: nat -> bool, buffers: nat -> Buffer, submitted: int,
                ghost s: Sys, ghost ls: seq<Label>, ghost u: Sys, ghost c: nat)
      returns (ghost used: seq<nat>, ghost k: nat, ghost ms: seq<Label>, ghost t: Sys)
      requires Tracks(u, c) && Polls(bdev.cfg, s, ls, u, c) && Began(u.chans[c])
      modifies this, queue`head, fetches
      ensures Tracks(t, c) && Polls(bdev.cfg, s, ms, t, c) && ls <= ms && Drained(bdev.cfg, t, c)
      ensures Started(u.chans[c], t.chans[c], used) && FirstFree(u.chans[c].slots, used)
      ensures Served(bdev.cfg, u, t, c, k, accepts, buffers)
      ensures !t.chans[c].polling && (submitted >= 0 ==> t.chans[c].prepared == {})
      ensures if submitted < 0 then hasReads >= old(hasReads) else hasReads == 0
    {
      ghost var v, w;
      used, ms, v := StartFetches(s, ls, u, c);
      k, ms, w := ServeRequests(accepts, buffers, s, ms, v, c);
      ms, t := EndPoll(submitted, s, ms, w, c);
      WorkEnds(bdev.cfg, u, v, w, t, c, used, k, accepts, buffers);
    }

    /** The poll from there on. */
    method PollOn(ghost cqes: seq<Cqe>, accepts: nat -> bool, buffers: nat -> Buffer, submitted: int,
                  ghost s: Sys, ghost ls: seq<Label>, ghost u: Sys, ghost c: nat)
      returns (ghost ms: seq<Label>, ghost t: Sys)
      requires Tracks(u, c) && CompletedFirst(bdev.cfg, s, ls, u, c, cqes, |cqes|)
      requires Began(s.chans[c]) && !s.chans[c].polling
      modifies this, queue`head, fetches
      ensures Tracks(t, c) && Polled(bdev.cfg, s, ms, t, c, cqes, accepts, buffers)
      ensures Finished(bdev.cfg, s, ms, t, c, cqes, submitted, old(hasReads), hasReads, true)
    {
      ghost var used, k;
      RestFinds(s, u, c);
      used, k, ms, t := Work(accepts, buffers, submitted, s, ls, u, c);
      PollConcludes(bdev.cfg, s, ls, u, ms, t, c, used, k, cqes, accepts, buffers);
    }

    /**
     `ubi_io_poll`. The environment gives the completions in the io_uring, the answers to operations
     on the base device, the buffers that are there at once, and the answer to submitting the prepared
     image reads.
     */
    method Poll(batch: int, cqes: seq<Cqe>, accepts: nat -> bool, buffers: nat -> Buffer, submitted: int,
                ghost s: Sys, ghost c: nat)
      returns (busy: bool, ghost ls: seq<Label>, ghost t: Sys)
      requires Tracks(s, c) && Reachable(bdev.cfg, s) && !s.chans[c].polling && Delivered(bdev.cfg, s, c, batch, cqes)
      modifies this, queue`head, fetches, bdev.stripeStatus, bdev.stripeHeaders
      ensures Tracks(t, c) && Polled(bdev.cfg, s, ls, t, c, cqes, accepts, buffers)
      ensures Finished(bdev.cfg, s, ls, t, c, cqes, submitted, old(hasReads), hasReads, busy)
    {
      var noStripes := queue.IsEmpty();
      var queuesEmpty := io == [] && noStripes;
      var completed;
      completed, ls, t := CompleteImageIo(batch, cqes, s, c);
      if queuesEmpty {
        busy := completed >= 1;
        PollReturns(bdev.cfg, s, ls, t, c, cqes, accepts, buffers, submitted, hasReads);
      } else {
        busy := true;
        ls, t := PollOn(cqes, accepts, buffers, submitted, s, ls, t, c);
      }
    }
  }
}
