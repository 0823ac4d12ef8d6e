/** Steps and short stretches of runs from which the counterexamples are put together. All use channel 0. */
module Scenarios {
  import opened Types
  import opened Protocol
  import opened Resources
  import opened Runs

  // ---------------------------------------------------------------- single steps

  lemma DoOpen(cfg: Config) returns (t: Sys)
    requires ConfigOk(cfg)
    ensures Reachable(cfg, t) && Shape(cfg, t) && t == Init(cfg).(chans := [EmptyChan()])
  {
    var s := Init(cfg);
    ReachableInit(cfg);
    ReachableSound(cfg, s);
    ReachableStep(cfg, s, Open);
    t := Step(cfg, s, Open);
  }

  lemma DoSubmit(cfg: Config, s: Sys, req: Request) returns (t: Sys)
    requires Reachable(cfg, s) && Shape(cfg, s) && |s.chans| == 1 && RequestOk(cfg, req)
    ensures Reachable(cfg, t) && Shape(cfg, t) && t == SubmitStep(cfg, s, 0, req)
  {
    ReachableStep(cfg, s, Submit(0, req));
    t := SubmitStep(cfg, s, 0, req);
  }

  lemma DoServe(cfg: Config, s: Sys, accepted: bool) returns (t: Sys)
    requires Reachable(cfg, s) && Shape(cfg, s) && HeadIs(cfg, s, 0, Servable)
    ensures Reachable(cfg, t) && Shape(cfg, t) && t == ServeStep(cfg, s, 0, accepted)
  {
    ReachableStep(cfg, s, Serve(0, accepted));
    t := ServeStep(cfg, s, 0, accepted);
  }

  lemma DoRing(cfg: Config, s: Sys) returns (t: Sys)
    requires Reachable(cfg, s) && Shape(cfg, s) && |s.chans| == 1 && s.chans[0].polling
    ensures Reachable(cfg, t) && Shape(cfg, t) && t == RingStep(s, 0, true)
  {
    ReachableStep(cfg, s, Ring(0, true));
    t := RingStep(s, 0, true);
  }

  lemma DoGetBuf(cfg: Config, s: Sys) returns (t: Sys)
    requires Reachable(cfg, s) && Shape(cfg, s) && |s.reqs| > 0 && s.reqs[0].phase.Buffering?
    requires s.reqs[0].chan < |s.chans|
    requires !Backed(cfg, s.status, s.reqs[0].req.start)
    ensures Reachable(cfg, t) && Shape(cfg, t)
    ensures t == PrepareRead(s, 0, ImageRead(s.reqs[0].phase.born, |s.hist.log|))
  {
    ReachableSound(cfg, s);
    RingHasRoom(cfg, s, s.reqs[0].chan);
    ReachableStep(cfg, s, GetBuf(0, true, true));
    t := GetBufStep(cfg, s, 0, true, true);
  }

  lemma DoImageReadDone(cfg: Config, s: Sys, junk: Data) returns (t: Sys)
    requires Reachable(cfg, s) && Shape(cfg, s) && |s.reqs| > 0 && s.reqs[0].phase.ImageRead?
    requires s.reqs[0].chan < |s.chans| && 0 !in s.chans[s.reqs[0].chan].prepared
    ensures Reachable(cfg, t) && Shape(cfg, t) && t == ImageReadDoneStep(cfg, s, 0, true, junk)
  {
    ReachableStep(cfg, s, ImageReadDone(0, true, junk));
    t := ImageReadDoneStep(cfg, s, 0, true, junk);
  }

  lemma DoWriteApply(cfg: Config, s: Sys, b: nat) returns (t: Sys)
    requires Reachable(cfg, s) && Shape(cfg, s) && |s.reqs| > 0 && s.reqs[0].phase.Writing?
    requires b in s.reqs[0].phase.pending
    requires b < cfg.blocks && b in Range(s.reqs[0].req) && s.reqs[0].req.count == |s.reqs[0].req.data|
    ensures Reachable(cfg, t) && Shape(cfg, t) && t == WriteApplyStep(cfg, s, 0, b)
  {
    ReachableStep(cfg, s, WriteApply(0, b));
    t := WriteApplyStep(cfg, s, 0, b);
  }

  lemma DoWriteDone(cfg: Config, s: Sys) returns (t: Sys)
    requires Reachable(cfg, s) && Shape(cfg, s) && |s.reqs| > 0
    requires s.reqs[0].phase.Writing? && s.reqs[0].phase.pending == {}
    ensures Reachable(cfg, t) && Shape(cfg, t) && t == WriteDoneStep(s, 0, true)
  {
    ReachableStep(cfg, s, WriteDone(0, true));
    t := WriteDoneStep(s, 0, true);
  }

  lemma DoStartFetch(cfg: Config, s: Sys) returns (t: Sys)
    requires Reachable(cfg, s) && Shape(cfg, s) && |s.chans| == 1 && s.chans[0].queue != []
    requires s.chans[0].slots[0] == Free
    ensures Reachable(cfg, t) && Shape(cfg, t) && t == StartFetchStep(s, 0, 0)
  {
    ReachableStep(cfg, s, StartFetch(0, 0));
    t := StartFetchStep(s, 0, 0);
  }

  lemma DoFetchRead(cfg: Config, s: Sys, x: nat) returns (t: Sys)
    requires Reachable(cfg, s) && Shape(cfg, s) && InSlot(s, 0, 0) && s.chans[0].slots[0] == Reading(x)
    requires Fits(cfg, x) && x < MAX_STRIPES
    ensures Reachable(cfg, t) && Shape(cfg, t) && t == FetchReadStep(cfg, s, 0, 0, true)
  {
    ReachableStep(cfg, s, FetchRead(0, 0, true, true));
    t := FetchReadStep(cfg, s, 0, 0, true);
  }

  lemma DoFetchApply(cfg: Config, s: Sys, b: nat, junk: Data) returns (t: Sys)
    requires Reachable(cfg, s) && Shape(cfg, s) && InSlot(s, 0, 0) && s.chans[0].slots[0].Copying?
    requires b in s.chans[0].slots[0].pending && b < cfg.blocks
    ensures Reachable(cfg, t) && Shape(cfg, t) && t == FetchApplyStep(cfg, s, 0, 0, b, junk)
  {
    ReachableStep(cfg, s, FetchApply(0, 0, b, junk));
    t := FetchApplyStep(cfg, s, 0, 0, b, junk);
  }

  lemma DoFetchDone(cfg: Config, s: Sys) returns (t: Sys)
    requires Reachable(cfg, s) && Shape(cfg, s) && InSlot(s, 0, 0)
    requires s.chans[0].slots[0].Copying? && s.chans[0].slots[0].pending == {}
    ensures Reachable(cfg, t) && Shape(cfg, t) && t == FetchDoneStep(s, 0, 0)
  {
    ReachableStep(cfg, s, FetchDone(0, 0));
    t := FetchDoneStep(s, 0, 0);
  }

  lemma DoFlushBlock(cfg: Config, s: Sys, i: nat, b: nat) returns (t: Sys)
    requires Reachable(cfg, s) && Shape(cfg, s) && i < |s.reqs| && s.reqs[i].phase.DataFlush?
    requires b in s.reqs[i].phase.pending
    requires b < cfg.blocks
    ensures Reachable(cfg, t) && Shape(cfg, t) && t == FlushBlockStep(s, i, b)
  {
    ReachableStep(cfg, s, FlushBlock(i, b));
    t := FlushBlockStep(s, i, b);
  }

  lemma DoDataFlushDone(cfg: Config, s: Sys, i: nat, ok: bool) returns (t: Sys)
    requires Reachable(cfg, s) && Shape(cfg, s) && i < |s.reqs| && s.reqs[i].phase.DataFlush?
    requires ok ==> s.reqs[i].phase.pending == {}
    ensures Reachable(cfg, t) && Shape(cfg, t) && |s.reqs[i].mark| == |s.hist.floor|
    ensures t == DataFlushDoneStep(s, i, ok, true)
  {
    assert IoShape(cfg, s.reqs[i], |s.chans|);
    ReachableStep(cfg, s, DataFlushDone(i, ok, true));
    t := DataFlushDoneStep(s, i, ok, true);
  }

  lemma DoMetaApply(cfg: Config, s: Sys, i: nat) returns (t: Sys)
    requires Reachable(cfg, s) && Shape(cfg, s) && i < |s.reqs| && s.reqs[i].phase.MetaWrite?
    requires !s.reqs[i].phase.applied
    ensures Reachable(cfg, t) && Shape(cfg, t) && t == MetaApplyStep(cfg, s, i)
  {
    ReachableStep(cfg, s, MetaApply(i));
    t := MetaApplyStep(cfg, s, i);
  }

  lemma DoMetaWriteDone(cfg: Config, s: Sys, i: nat) returns (t: Sys)
    requires Reachable(cfg, s) && Shape(cfg, s) && i < |s.reqs| && s.reqs[i].phase.MetaWrite? && s.reqs[i].phase.applied
    ensures Reachable(cfg, t) && Shape(cfg, t) && t == MetaWriteDoneStep(s, i, true, true)
  {
    ReachableStep(cfg, s, MetaWriteDone(i, true, true));
    t := MetaWriteDoneStep(s, i, true, true);
  }

  lemma DoMetaSettle(cfg: Config, s: Sys, i: nat) returns (t: Sys)
    requires Reachable(cfg, s) && Shape(cfg, s) && i < |s.reqs| && s.reqs[i].phase.MetaFlush?
    requires !s.reqs[i].phase.settled
    ensures Reachable(cfg, t) && Shape(cfg, t) && t == MetaSettleStep(s, i)
  {
    ReachableStep(cfg, s, MetaSettle(i));
    t := MetaSettleStep(s, i);
  }

  lemma DoMetaFlushDone(cfg: Config, s: Sys, i: nat) returns (t: Sys)
    requires Reachable(cfg, s) && Shape(cfg, s) && i < |s.reqs| && s.reqs[i].phase.MetaFlush? && s.reqs[i].phase.settled
    ensures Reachable(cfg, t) && Shape(cfg, t) && |s.reqs[i].mark| == |s.hist.floor|
    ensures t == MetaFlushDoneStep(s, i, true)
  {
    assert IoShape(cfg, s.reqs[i], |s.chans|);
    ReachableStep(cfg, s, MetaFlushDone(i, true));
    t := MetaFlushDoneStep(s, i, true);
  }

  // ---------------------------------------------------------------- a first request

  /** Nothing but request 0, which waits, has happened on the only channel. */
  ghost predicate JustSubmitted(cfg: Config, s: Sys, req: Request) {
    && Reachable(cfg, s) && Shape(cfg, s) && |s.chans| == 1
    && s.chans[0].io == [0] && s.chans[0].activeReads == 0 && s.chans[0].prepared == {}
    && s.chans[0].slots == EmptyChan().slots
    && |s.reqs| == 1 && s.reqs[0].req == req && s.reqs[0].phase.Waiting? && s.reqs[0].chan == 0
    && s.disk == BlankDisk(cfg) && s.headers == Init(cfg).headers && s.fetched == 0 && s.flushed == 0
    && s.hist == Init(cfg).hist
  }

  /** A request that asks for no fetch. */
  lemma FirstRequest(cfg: Config, req: Request) returns (s: Sys)
    requires ConfigOk(cfg) && RequestOk(cfg, req) && !(Fetching(cfg, req) && (Spans(cfg, req) || OnImage(cfg, req)))
    ensures JustSubmitted(cfg, s, req) && s.status == Init(cfg).status && s.chans[0].queue == []
  {
    s := DoOpen(cfg);
    s := DoSubmit(cfg, s, req);
  }

  /** What submitting a request that asks for no fetch does. */
  lemma PlainSubmit(cfg: Config, s: Sys, c: nat, req: Request)
    requires Shape(cfg, s) && c < |s.chans| && RequestOk(cfg, req)
    requires !(Fetching(cfg, req) && (Spans(cfg, req) || OnImage(cfg, req)))
    ensures var t := SubmitStep(cfg, s, c, req);
            && |t.reqs| == |s.reqs| + 1 && t.reqs[..|s.reqs|] == s.reqs
            && t.reqs[|s.reqs|].req == req && t.reqs[|s.reqs|].phase == Waiting && t.reqs[|s.reqs|].chan == c
            && t == s.(chans := s.chans[c := s.chans[c].(io := s.chans[c].io + [|s.reqs|],
                                                         arrived := s.chans[c].arrived + [|s.reqs|])],
                       reqs := t.reqs)
  {
  }

  /** What submitting a write of one block of the image does, if its stripe has not been asked for. */
  lemma ImageWriteAsks(cfg: Config, s: Sys, b: nat)
    requires Shape(cfg, s) && |s.chans| == 1 && b < |cfg.image| && s.status[Stripe(cfg, b)] == NotFetched
    ensures RequestOk(cfg, Request(Write, b, 1, [0]))
    ensures var t, x := SubmitStep(cfg, s, 0, Request(Write, b, 1, [0])), Stripe(cfg, b);
            && |t.reqs| == |s.reqs| + 1 && t.reqs[..|s.reqs|] == s.reqs
            && t.reqs[|s.reqs|].req == Request(Write, b, 1, [0]) && t.reqs[|s.reqs|].phase == Waiting
            && t.reqs[|s.reqs|].chan == 0
            && |t.chans| == 1 && t.chans[0] == s.chans[0].(io := s.chans[0].io + [|s.reqs|],
                                                           arrived := s.chans[0].arrived + [|s.reqs|],
                                                           queue := Pushed(s.chans[0].queue, x))
            && t == s.(status := s.status[x := Inflight], chans := t.chans, reqs := t.reqs)
  {
    assert !Spans(cfg, Request(Write, b, 1, [0]));
  }

  /** A write of one block of the image. */
  lemma FirstImageWrite(cfg: Config, b: nat) returns (s: Sys)
    requires ConfigOk(cfg) && b < |cfg.image|
    ensures JustSubmitted(cfg, s, Request(Write, b, 1, [0]))
    ensures s.status == Init(cfg).status[Stripe(cfg, b) := Inflight] && s.chans[0].queue == [Stripe(cfg, b)]
  {
    s := DoOpen(cfg);
    ImageWriteAsks(cfg, s, b);
    s := DoSubmit(cfg, s, Request(Write, b, 1, [0]));
  }

  // ---------------------------------------------------------------- a fetch

  /** Slot 0 of the only channel copies stripe `x` while everything else stays as in `s`. */
  ghost predicate CopyingFrom(cfg: Config, s: Sys, t: Sys, x: nat) {
    && Reachable(cfg, t) && Shape(cfg, t) && |t.chans| == 1 && |s.chans| == 1 && InSlot(t, 0, 0)
    && t.chans[0].slots[0].Copying? && t.chans[0].slots[0].stripe == x
    && t.chans[0].io == s.chans[0].io && t.chans[0].activeReads == s.chans[0].activeReads
    && t.reqs == s.reqs && t.status == s.status && t.headers == s.headers
    && t.fetched == s.fetched && t.flushed == s.flushed
    && t.hist == s.hist && |t.disk.vol| == |s.disk.vol| && |t.disk.dur| == |s.disk.dur|
    && (!cfg.writeThrough ==> t.disk.dur == s.disk.dur)
  }

  /** The fetch queued on channel 0 is started and its stripe read from the image. */
  lemma DoFetch(cfg: Config, s: Sys, x: nat) returns (t: Sys)
    requires Reachable(cfg, s) && Shape(cfg, s) && |s.chans| == 1 && s.chans[0].queue == [x]
    requires s.chans[0].slots[0] == Free
    requires Fits(cfg, x) && x < MAX_STRIPES
    ensures CopyingFrom(cfg, s, t, x) && t.chans[0].slots[0].pending == StripeBlocks(cfg, x) && t.disk == s.disk
  {
    t := DoStartFetch(cfg, s);
    t := DoFetchRead(cfg, t, x);
  }

  lemma CopyOne(cfg: Config, s: Sys, t: Sys, x: nat, b: nat, junk: Data) returns (u: Sys)
    requires CopyingFrom(cfg, s, t, x) && b in t.chans[0].slots[0].pending && b < cfg.blocks
    ensures CopyingFrom(cfg, s, u, x) && u.chans[0].slots[0].pending == t.chans[0].slots[0].pending - {b}
    ensures u.disk.vol == t.disk.vol[b := if Whole(cfg, b) then Cell(cfg.image[b], 0) else Cell(junk, -1)]
  {
    u := DoFetchApply(cfg, t, b, junk);
  }

  /** All remaining blocks of the stripe reach the base device. */
  lemma {:induction false} CopyAll(cfg: Config, s: Sys, t: Sys, x: nat) returns (u: Sys)
    requires CopyingFrom(cfg, s, t, x)
    ensures CopyingFrom(cfg, s, u, x) && u.chans[0].slots[0].pending == {}
    ensures forall b: nat | b < |t.disk.vol| && b !in t.chans[0].slots[0].pending :: u.disk.vol[b] == t.disk.vol[b]
    decreases |t.chans[0].slots[0].pending|
  {
    var pending := t.chans[0].slots[0].pending;
    if pending == {} {
      u := t;
    } else {
      var b :| b in pending;
      PendingInside(cfg, t, b);
      var v := CopyOne(cfg, s, t, x, b, 0);
      u := CopyAll(cfg, s, v, x);
    }
  }

  lemma PendingInside(cfg: Config, t: Sys, b: nat)
    requires Shape(cfg, t) && InSlot(t, 0, 0) && t.chans[0].slots[0].Copying? && b in t.chans[0].slots[0].pending
    ensures b < cfg.blocks
  {
    assert ChanShape(cfg, t.chans[0], |t.reqs|);
    assert SlotShape(cfg, t.chans[0].slots[0]);
    assert b in StripeBlocks(cfg, t.chans[0].slots[0].stripe);
  }

  /**
   Stripe `x` has been fetched for the write of block `b`, which waits; of its blocks, `t` was copied with
   leftovers `junk`.
   */
  lemma FetchedFor(cfg: Config, b: nat, t: nat, junk: Data) returns (s: Sys)
    requires ConfigOk(cfg) && b < |cfg.image| && t < cfg.blocks && Stripe(cfg, b) == Stripe(cfg, t)
    requires Fits(cfg, Stripe(cfg, b))
    ensures Reachable(cfg, s) && Shape(cfg, s) && |s.chans| == 1 && s.chans[0].io == [0] && s.chans[0].activeReads == 0
    ensures |s.reqs| == 1 && s.reqs[0].req == Request(Write, b, 1, [0]) && s.reqs[0].phase.Waiting?
    ensures s.status[Stripe(cfg, b)] == Fetched && s.headers[Stripe(cfg, b)] && s.fetched == 1 && s.flushed == 0
    ensures s.disk.vol[t] == if Whole(cfg, t) then Cell(cfg.image[t], 0) else Cell(junk, -1)
    ensures s.hist == Init(cfg).hist && (!cfg.writeThrough ==> s.disk.dur == BlankDisk(cfg).dur)
  {
    var x := Stripe(cfg, b);
    var s0 := FirstImageWrite(cfg, b);
    var s1 := DoFetch(cfg, s0, x);
    assert t in StripeBlocks(cfg, x);
    var s2 := CopyOne(cfg, s0, s1, x, t, junk);
    var s3 := CopyAll(cfg, s0, s2, x);
    s := DoFetchDone(cfg, s3);
  }

  // ---------------------------------------------------------------- an acknowledged write past the image

  /** Request 0 has written block `t`; nothing else has been written or fetched, and `io` waits on the only channel. */
  ghost predicate AtRest(cfg: Config, s: Sys, io: seq<nat>, t: nat, data: Data)
    requires |cfg.image| <= cfg.blocks == |cfg.base|
  {
    && |s.chans| == 1 && s.chans[0].io == io && s.chans[0].queue == []
    && |s.chans[0].slots| == MAX_STRIPE_FETCHES && s.chans[0].slots[0] == Free
    && s.chans[0].activeReads == 0 && s.chans[0].prepared == {}
    && s.status == Init(cfg).status && s.fetched == 0 && s.flushed == 0
    && |s.reqs| > 0 && s.reqs[0].req == Request(Write, t, 1, [data]) && s.reqs[0].phase == WriteOk(map[t := 1])
    && s.hist.log == [Entry(t, data)] && s.hist.epoch == 0 && s.hist.session == 0
  }

  /** A write of one block past the image is dispatched. */
  lemma DispatchedPast(cfg: Config, t: nat, data: Data, accepted: bool) returns (s: Sys)
    requires ConfigOk(cfg) && |cfg.image| <= t < cfg.blocks
    ensures Reachable(cfg, s) && Shape(cfg, s) && |s.chans| == 1
    ensures s.chans[0].io == [] && s.chans[0].queue == [] && s.chans[0].slots[0] == Free
    ensures s.chans[0].activeReads == 0 && s.chans[0].prepared == {}
    ensures s.status == Init(cfg).status && s.fetched == 0 && s.flushed == 0 && s.hist == Init(cfg).hist
    ensures |s.reqs| == 1 && s.reqs[0].req == Request(Write, t, 1, [data])
    ensures s.reqs[0].phase == if accepted then Writing({t}, map[]) else Lost
  {
    var w := Request(Write, t, 1, [data]);
    assert Range(w) == {t};
    s := FirstRequest(cfg, w);
    s := DoServe(cfg, s, accepted);
  }

  /** It is acknowledged. */
  lemma Acknowledged(cfg: Config, t: nat, data: Data) returns (s: Sys)
    requires ConfigOk(cfg) && |cfg.image| <= t < cfg.blocks
    ensures Reachable(cfg, s) && Shape(cfg, s) && AtRest(cfg, s, [], t, data) && |s.reqs| == 1
  {
    s := DispatchedPast(cfg, t, data, true);
    assert t in Range(s.reqs[0].req);
    s := WrittenPast(cfg, s, t, data);
    s := DoWriteDone(cfg, s);
  }

  lemma WrittenPast(cfg: Config, s: Sys, t: nat, data: Data) returns (u: Sys)
    requires Reachable(cfg, s) && Shape(cfg, s) && |s.reqs| == 1 && t < cfg.blocks && s.hist == Init(cfg).hist
    requires s.reqs[0].req == Request(Write, t, 1, [data]) && s.reqs[0].phase == Writing({t}, map[])
    ensures Reachable(cfg, u) && Shape(cfg, u)
    ensures u == s.(reqs := u.reqs, disk := u.disk, hist := Init(cfg).hist.(log := [Entry(t, data)]))
    ensures |u.reqs| == 1 && u.reqs[0] == s.reqs[0].(phase := Writing({}, map[t := 1]))
  {
    assert t in Range(s.reqs[0].req);
    u := DoWriteApply(cfg, s, t);
    assert {t} - {t} == {} && map[][t := 1] == map[t := 1];
  }
}
