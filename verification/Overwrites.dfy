/**
 An image that does not end with a stripe, again: exactly when a write past its end can be overwritten after it
 was acknowledged or even flushed, and exactly when written data is read back.
 */
module Overwrites {
  import opened Types
  import opened Protocol
  import opened Frames
  import opened Resources
  import opened Runs
  import opened Placement
  import opened CopyOnAccess
  import opened ReadBack
  import opened Traces
  import opened Scenarios

  // ---------------------------------------------------------------- a flush of the block

  function FlushOf(t: nat): Request {
    Request(Flush, t, 1, [])
  }

  /** Request `n` is a flush of block `t`. */
  ghost predicate Flushing(s: Sys, n: nat, t: nat, phase: Phase) {
    n < |s.reqs| && s.reqs[n].req == FlushOf(t) && s.reqs[n].phase == phase && s.reqs[n].chan == 0
  }

  lemma FlushSubmits(cfg: Config, s: Sys, t: nat, data: Data) returns (u: Sys)
    requires Reachable(cfg, s) && Shape(cfg, s) && AtRest(cfg, s, [], t, data) && t < cfg.blocks
    ensures Took(cfg, s, [Submit(0, FlushOf(t))], u) && AtRest(cfg, u, [|s.reqs|], t, data)
    ensures Flushing(u, |s.reqs|, t, Waiting)
  {
    PlainSubmit(cfg, s, 0, FlushOf(t));
    TookSubmit(cfg, s, 0, FlushOf(t));
    u := SubmitStep(cfg, s, 0, FlushOf(t));
  }

  lemma FlushDispatched(cfg: Config, s: Sys, ls: seq<Label>, u: Sys, n: nat, t: nat, data: Data) returns (v: Sys)
    requires Took(cfg, s, ls, u) && AtRest(cfg, u, [n], t, data) && Flushing(u, n, t, Waiting) && !cfg.noSync && n > 0
    ensures Took(cfg, s, ls + [Serve(0, true)], v) && AtRest(cfg, v, [], t, data)
    ensures Flushing(v, n, t, DataFlush({t}))
  {
    assert Range(FlushOf(t)) == {t};
    TookServe(cfg, s, ls, u, 0, true);
    v := ServeStep(cfg, u, 0, true);
  }

  lemma FlushPasses(cfg: Config, s: Sys, ls: seq<Label>, u: Sys, n: nat, t: nat, data: Data) returns (v: Sys)
    requires Took(cfg, s, ls, u) && AtRest(cfg, u, [], t, data) && Flushing(u, n, t, DataFlush({t}))
    requires n > 0 && t < cfg.blocks
    ensures Took(cfg, s, ls + [FlushBlock(n, t)], v) && AtRest(cfg, v, [], t, data)
    ensures Flushing(v, n, t, DataFlush({}))
  {
    TookFlushBlock(cfg, s, ls, u, n, t);
    v := FlushBlockStep(u, n, t);
  }

  lemma FlushSucceeds(cfg: Config, s: Sys, ls: seq<Label>, u: Sys, n: nat, t: nat, data: Data) returns (v: Sys)
    requires Took(cfg, s, ls, u) && AtRest(cfg, u, [], t, data) && Flushing(u, n, t, DataFlush({})) && n > 0
    ensures Took(cfg, s, ls + [DataFlushDone(n, true, true)], v) && AtRest(cfg, v, [], t, data)
    ensures Flushing(v, n, t, FlushOk(u.headers))
  {
    assert IoShape(cfg, u.reqs[n], |u.chans|);
    TookOne(cfg, s, ls, u, DataFlushDone(n, true, true));
    v := DataFlushDoneStep(u, n, true, true);
  }

  /** A flush of the block succeeds. */
  lemma FlushesRest(cfg: Config, s: Sys, t: nat, data: Data) returns (ms: seq<Label>, u: Sys)
    requires Reachable(cfg, s) && Shape(cfg, s) && AtRest(cfg, s, [], t, data) && t < cfg.blocks && !cfg.noSync
    ensures Took(cfg, s, ms, u) && AtRest(cfg, u, [], t, data)
    ensures ms != [] && ms[0] == Submit(0, FlushOf(t)) && |s.reqs| < |u.reqs| && u.reqs[|s.reqs|].phase.FlushOk?
  {
    var n := |s.reqs|;
    ms := [Submit(0, FlushOf(t))];
    u := FlushSubmits(cfg, s, t, data);
    u := FlushDispatched(cfg, s, ms, u, n, t, data);
    ms := ms + [Serve(0, true)];
    u := FlushPasses(cfg, s, ms, u, n, t, data);
    ms := ms + [FlushBlock(n, t)];
    u := FlushSucceeds(cfg, s, ms, u, n, t, data);
    ms := ms + [DataFlushDone(n, true, true)];
  }

  // ---------------------------------------------------------------- a copy over the block

  /** Slot 0 of the only channel works for a stripe; the log holds the one write of block `t`. */
  ghost predicate Works0(s: Sys, slot: Slot, t: nat, data: Data) {
    && |s.chans| == 1 && |s.chans[0].slots| > 0 && s.chans[0].slots[0] == slot
    && s.hist.log == [Entry(t, data)] && s.hist.session == 0
  }

  lemma CopyAsked(cfg: Config, s: Sys, b: nat, t: nat, data: Data) returns (u: Sys)
    requires Reachable(cfg, s) && Shape(cfg, s) && AtRest(cfg, s, [], t, data) && Adjoins(cfg, b, t)
    ensures Took(cfg, s, [Submit(0, Request(Write, b, 1, [0]))], u)
    ensures Works0(u, Free, t, data) && u.chans[0].queue == [Stripe(cfg, b)]
  {
    ImageWriteAsks(cfg, s, b);
    TookSubmit(cfg, s, 0, Request(Write, b, 1, [0]));
    u := SubmitStep(cfg, s, 0, Request(Write, b, 1, [0]));
  }

  lemma CopyStarts(cfg: Config, s: Sys, ls: seq<Label>, u: Sys, x: nat, t: nat, data: Data) returns (v: Sys)
    requires Took(cfg, s, ls, u) && Works0(u, Free, t, data) && u.chans[0].queue == [x]
    ensures Took(cfg, s, ls + [StartFetch(0, 0)], v) && Works0(v, Reading(x), t, data)
  {
    TookStart(cfg, s, ls, u, 0, 0);
    v := StartFetchStep(u, 0, 0);
  }

  lemma CopyReads(cfg: Config, s: Sys, ls: seq<Label>, u: Sys, x: nat, t: nat, data: Data) returns (v: Sys)
    requires Took(cfg, s, ls, u) && Works0(u, Reading(x), t, data) && Fits(cfg, x)
    ensures Took(cfg, s, ls + [FetchRead(0, 0, true, true)], v) && Works0(v, Copying(x, StripeBlocks(cfg, x)), t, data)
  {
    assert SlotShape(cfg, u.chans[0].slots[0]);
    TookFetchRead(cfg, s, ls, u, 0, 0, true, true);
    v := FetchReadStep(cfg, u, 0, 0, true);
  }

  lemma CopyWrites(cfg: Config, s: Sys, ls: seq<Label>, u: Sys, x: nat, t: nat, data: Data, junk: Data) returns (v: Sys)
    requires Took(cfg, s, ls, u) && Works0(u, Copying(x, StripeBlocks(cfg, x)), t, data)
    requires |cfg.image| <= t < cfg.blocks && Stripe(cfg, t) == x
    ensures Took(cfg, s, ls + [FetchApply(0, 0, t, junk)], v)
    ensures Works0(v, Copying(x, StripeBlocks(cfg, x) - {t}), t, data) && v.disk.vol[t] == Cell(junk, -1)
  {
    TookOne(cfg, s, ls, u, FetchApply(0, 0, t, junk));
    v := FetchApplyStep(cfg, u, 0, 0, t, junk);
  }

  lemma CopySettles(cfg: Config, s: Sys, ls: seq<Label>, u: Sys, slot: Slot, t: nat, data: Data) returns (v: Sys)
    requires Took(cfg, s, ls, u) && Works0(u, slot, t, data) && t < cfg.blocks
    ensures Took(cfg, s, ls + [Destage(t)], v) && Works0(v, slot, t, data)
    ensures v.disk.vol[t] == v.disk.dur[t] == u.disk.vol[t]
  {
    TookDestage(cfg, s, ls, u, t);
    v := u.(disk := Settled(u.disk, t));
  }

  /** The copy of a stripe with blocks on both sides of the end replaces the block, also on the medium. */
  lemma CopiesOver(cfg: Config, s: Sys, b: nat, t: nat, data: Data, junk: Data)
    returns (ms: seq<Label>, u: Sys, slot: Slot)
    requires Reachable(cfg, s) && Shape(cfg, s) && AtRest(cfg, s, [], t, data)
    requires Adjoins(cfg, b, t) && Fits(cfg, Stripe(cfg, b))
    ensures Took(cfg, s, ms, u) && Works0(u, slot, t, data) && u.disk.vol[t] == u.disk.dur[t] == Cell(junk, -1)
  {
    var x := Stripe(cfg, b);
    ms := [Submit(0, Request(Write, b, 1, [0]))];
    u := CopyAsked(cfg, s, b, t, data);
    u := CopyStarts(cfg, s, ms, u, x, t, data);
    ms := ms + [StartFetch(0, 0)];
    u := CopyReads(cfg, s, ms, u, x, t, data);
    ms := ms + [FetchRead(0, 0, true, true)];
    u := CopyWrites(cfg, s, ms, u, x, t, data, junk);
    ms := ms + [FetchApply(0, 0, t, junk)];
    slot := Copying(x, StripeBlocks(cfg, x) - {t});
    u := CopySettles(cfg, s, ms, u, slot, t, data);
    ms := ms + [Destage(t)];
  }

  // ---------------------------------------------------------------- reads that return something else

  /** Request `n` of channel `c` is a read in the given phase; the log holds the one write of block `t`. */
  ghost predicate ReadingAt(s: Sys, c: nat, n: nat, req: Request, phase: Phase, t: nat, data: Data) {
    && c < |s.chans| && n < |s.reqs| && s.reqs[n].req == req && s.reqs[n].chan == c && s.reqs[n].phase == phase
    && s.hist.log == [Entry(t, data)] && s.hist.session == 0
  }

  /** It is the only one waiting on its channel. */
  ghost predicate Heads(s: Sys, c: nat, n: nat) {
    c < |s.chans| && s.chans[c].io == [n] && s.chans[c].activeReads == 0
  }

  function ReadOf(t: nat): Request {
    Request(Read, t, 1, [])
  }

  /** A read of block `t` past the image arrives on a new channel. */
  lemma ReadArrives(cfg: Config, s: Sys, ls: seq<Label>, u: Sys, slot: Slot, t: nat, data: Data) returns (v: Sys)
    requires Took(cfg, s, ls, u) && Works0(u, slot, t, data) && |cfg.image| <= t < cfg.blocks
    ensures Took(cfg, s, ls + [Open] + [Submit(1, ReadOf(t))], v) && Heads(v, 1, |u.reqs|) && v.disk == u.disk
    ensures ReadingAt(v, 1, |u.reqs|, ReadOf(t), Waiting, t, data)
  {
    v := ChannelOpens(cfg, s, ls, u);
    PlainSubmit(cfg, v, 1, ReadOf(t));
    TookSubmitNext(cfg, s, ls + [Open], v, 1, ReadOf(t));
    v := SubmitStep(cfg, v, 1, ReadOf(t));
  }

  lemma ChannelOpens(cfg: Config, s: Sys, ls: seq<Label>, u: Sys) returns (v: Sys)
    requires Took(cfg, s, ls, u)
    ensures Took(cfg, s, ls + [Open], v) && v == u.(chans := u.chans + [EmptyChan()])
  {
    TookOne(cfg, s, ls, u, Open);
    v := u.(chans := u.chans + [EmptyChan()]);
  }

  lemma ReadServed(cfg: Config, s: Sys, c: nat, n: nat, req: Request, t: nat, data: Data) returns (u: Sys)
    requires Reachable(cfg, s) && Shape(cfg, s) && ReadingAt(s, c, n, req, Waiting, t, data) && Heads(s, c, n)
    requires req.kind == Read && HeadIs(cfg, s, c, Servable)
    ensures Took(cfg, s, [Serve(c, true)], u) && ReadingAt(u, c, n, req, Buffering(1), t, data)
    ensures u.disk == s.disk && u.status == s.status && u.chans[c].prepared == s.chans[c].prepared
    ensures u.chans[c].polling
  {
    TookNone(cfg, s);
    TookServe(cfg, s, [], s, c, true);
    assert [] + [Serve(c, true)] == [Serve(c, true)];
    u := ServeStep(cfg, s, c, true);
  }

  lemma ReadGoesToBase(cfg: Config, s: Sys, ls: seq<Label>, u: Sys, n: nat, t: nat, data: Data) returns (v: Sys)
    requires Took(cfg, s, ls, u) && ReadingAt(u, 1, n, ReadOf(t), Buffering(1), t, data)
    requires |cfg.image| <= t < cfg.blocks
    ensures Took(cfg, s, ls + [GetBuf(n, true, true)], v) && v.disk == u.disk
    ensures ReadingAt(v, 1, n, ReadOf(t), BaseRead(1, {t}, map[]), t, data)
  {
    assert Range(ReadOf(t)) == {t};
    TookGetBuf(cfg, s, ls, u, n, true, true);
    v := GetBufStep(cfg, u, n, true, true);
  }

  lemma ReadSeesBase(cfg: Config, s: Sys, ls: seq<Label>, u: Sys, n: nat, t: nat, data: Data) returns (v: Sys)
    requires Took(cfg, s, ls, u) && ReadingAt(u, 1, n, ReadOf(t), BaseRead(1, {t}, map[]), t, data) && t < cfg.blocks
    ensures Took(cfg, s, ls + [BaseReadBlock(n, t)], v) && t < |u.disk.vol|
    ensures ReadingAt(v, 1, n, ReadOf(t), BaseRead(1, {}, map[t := Snap(u.disk.vol[t].data, 1)]), t, data)
  {
    TookOne(cfg, s, ls, u, BaseReadBlock(n, t));
    StepIsRequest(cfg, u, BaseReadBlock(n, t));
    v := BaseReadBlockStep(u, n, t);
    assert {t} - {t} == {};
  }

  /** The read up to its last step: served from the base device. */
  lemma ReadFromBase(cfg: Config, s: Sys, n: nat, t: nat, data: Data) returns (ms: seq<Label>, u: Sys)
    requires Reachable(cfg, s) && Shape(cfg, s) && ReadingAt(s, 1, n, ReadOf(t), Waiting, t, data) && Heads(s, 1, n)
    requires |cfg.image| <= t < cfg.blocks
    ensures Took(cfg, s, ms, u) && |ms| == 3 && ms[0] == Serve(1, true)
    ensures ReadingAt(u, 1, n, ReadOf(t), BaseRead(1, {}, map[t := Snap(s.disk.vol[t].data, 1)]), t, data)
  {
    assert HeadIs(cfg, s, 1, Servable);
    u := ReadServed(cfg, s, 1, n, ReadOf(t), t, data);
    ms := [Serve(1, true)];
    u := ReadGoesToBase(cfg, s, ms, u, n, t, data);
    ms := ms + [GetBuf(n, true, true)];
    u := ReadSeesBase(cfg, s, ms, u, n, t, data);
    ms := ms + [BaseReadBlock(n, t)];
  }

  /** A read ends well with `junk` in block `t`. */
  ghost predicate EndsWith(s: Sys, n: nat, req: Request, t: nat, data: Data, junk: Data) {
    && n < |s.reqs| && s.reqs[n].req == req && s.reqs[n].phase.ReadOk? && t in s.reqs[n].phase.got
    && s.reqs[n].phase.got[t].data == junk && s.hist.log == [Entry(t, data)] && s.hist.session == 0
  }

  lemma BaseReadEnds(cfg: Config, s: Sys, n: nat, t: nat, data: Data, junk: Data) returns (u: Sys)
    requires Reachable(cfg, s) && Shape(cfg, s)
    requires ReadingAt(s, 1, n, ReadOf(t), BaseRead(1, {}, map[t := Snap(junk, 1)]), t, data)
    ensures Took(cfg, s, [BaseReadDone(n, true)], u) && EndsWith(u, n, ReadOf(t), t, data, junk)
  {
    TookBaseReadDone(cfg, s, n, true);
    u := BaseReadDoneStep(s, n, true);
  }

  // ---------------------------------------------------------------- a read across the end

  /** A read from block `b` to block `t`. */
  function CrossRead(b: nat, t: nat): Request {
    Request(Read, b, if b <= t then t - b + 1 else 0, [])
  }

  lemma AcrossArrives(cfg: Config, s: Sys, b: nat, t: nat, data: Data) returns (u: Sys)
    requires Reachable(cfg, s) && Shape(cfg, s) && AtRest(cfg, s, [], t, data) && Adjoins(cfg, b, t) && !cfg.copyOnRead
    ensures Took(cfg, s, [Submit(0, CrossRead(b, t))], u) && Heads(u, 0, |s.reqs|)
    ensures ReadingAt(u, 0, |s.reqs|, CrossRead(b, t), Waiting, t, data)
    ensures u.status == Init(cfg).status && u.chans[0].prepared == {} && t in Range(CrossRead(b, t))
  {
    PlainSubmit(cfg, s, 0, CrossRead(b, t));
    TookSubmit(cfg, s, 0, CrossRead(b, t));
    u := SubmitStep(cfg, s, 0, CrossRead(b, t));
  }

  lemma AcrossGoesToImage(cfg: Config, s: Sys, ls: seq<Label>, u: Sys, n: nat, b: nat, t: nat, data: Data)
    returns (v: Sys)
    requires Took(cfg, s, ls, u) && Adjoins(cfg, b, t) && u.status == Init(cfg).status
    requires ReadingAt(u, 0, n, CrossRead(b, t), Buffering(1), t, data) && u.chans[0].polling
    ensures Took(cfg, s, ls + [GetBuf(n, true, true)], v)
    ensures ReadingAt(v, 0, n, CrossRead(b, t), ImageRead(1, 1), t, data) && v.chans[0].polling
  {
    EntryForBuffered(cfg, u, n);
    TookGetBuf(cfg, s, ls, u, n, true, true);
    v := GetBufStep(cfg, u, n, true, true);
  }

  lemma EntryForBuffered(cfg: Config, s: Sys, n: nat)
    requires Reachable(cfg, s) && n < |s.reqs| && s.reqs[n].phase.Buffering? && s.reqs[n].chan < |s.chans|
    ensures RingEntries(s, s.reqs[n].chan) < URING_QUEUE_SIZE
  {
    ReachableSound(cfg, s);
    RingHasRoom(cfg, s, s.reqs[n].chan);
  }

  lemma AcrossSubmitted(cfg: Config, s: Sys, ls: seq<Label>, u: Sys, n: nat, req: Request, t: nat, data: Data)
    returns (v: Sys)
    requires Took(cfg, s, ls, u) && ReadingAt(u, 0, n, req, ImageRead(1, 1), t, data) && u.chans[0].polling
    ensures Took(cfg, s, ls + [Ring(0, true)], v) && ReadingAt(v, 0, n, req, ImageRead(1, 1), t, data)
    ensures v.chans[0].prepared == {}
  {
    TookRing(cfg, s, ls, u, 0, true);
    v := RingStep(u, 0, true);
  }

  /** The read up to its last step: served from the image. */
  lemma ReadFromImage(cfg: Config, s: Sys, n: nat, b: nat, t: nat, data: Data) returns (ms: seq<Label>, u: Sys)
    requires Reachable(cfg, s) && Shape(cfg, s) && Adjoins(cfg, b, t) && !cfg.copyOnRead
    requires ReadingAt(s, 0, n, CrossRead(b, t), Waiting, t, data) && Heads(s, 0, n) && s.status == Init(cfg).status
    ensures Took(cfg, s, ms, u) && |ms| == 3 && ms[0] == Serve(0, true)
    ensures ReadingAt(u, 0, n, CrossRead(b, t), ImageRead(1, 1), t, data) && u.chans[0].prepared == {}
  {
    assert HeadIs(cfg, s, 0, Servable);
    u := ReadServed(cfg, s, 0, n, CrossRead(b, t), t, data);
    ms := [Serve(0, true)];
    u := AcrossGoesToImage(cfg, s, ms, u, n, b, t, data);
    ms := ms + [GetBuf(n, true, true)];
    u := AcrossSubmitted(cfg, s, ms, u, n, CrossRead(b, t), t, data);
    ms := ms + [Ring(0, true)];
  }

  lemma ImageReadEnds(cfg: Config, s: Sys, n: nat, b: nat, t: nat, data: Data, junk: Data) returns (u: Sys)
    requires Reachable(cfg, s) && Shape(cfg, s) && Adjoins(cfg, b, t)
    requires ReadingAt(s, 0, n, CrossRead(b, t), ImageRead(1, 1), t, data) && s.chans[0].prepared == {}
    ensures Took(cfg, s, [ImageReadDone(n, true, junk)], u) && EndsWith(u, n, CrossRead(b, t), t, data, junk)
  {
    assert t in Range(CrossRead(b, t));
    TookNone(cfg, s);
    TookImageRead(cfg, s, [], s, n, true, junk);
    assert [] + [ImageReadDone(n, true, junk)] == [ImageReadDone(n, true, junk)];
    u := ImageReadDoneStep(cfg, s, n, true, junk);
  }

  // ---------------------------------------------------------------- put together

  lemma OverwrittenRead(cfg: Config, s: Sys, b: nat, t: nat, data: Data, junk: Data)
    returns (ms: seq<Label>, p: Sys, n: nat, ps: seq<Label>, q: Sys, z: Sys)
    requires Reachable(cfg, s) && Shape(cfg, s) && AtRest(cfg, s, [], t, data)
    requires Adjoins(cfg, b, t) && Fits(cfg, Stripe(cfg, b))
    ensures Path(cfg, s, ms, p) && Path(cfg, p, ps, q) && Path(cfg, q, [BaseReadDone(n, true)], z)
    ensures |ps| == 3 && ps[0] == Serve(1, true) && Heads(p, 1, n)
    ensures ReadingAt(p, 1, n, ReadOf(t), Waiting, t, data) && t in Range(ReadOf(t))
    ensures ReadingAt(q, 1, n, ReadOf(t), BaseRead(1, {}, map[t := Snap(junk, 1)]), t, data)
    ensures EndsWith(z, n, ReadOf(t), t, data, junk)
  {
    var u, slot;
    ms, u, slot := CopiesOver(cfg, s, b, t, data, junk);
    n := |u.reqs|;
    p := ReadArrives(cfg, s, ms, u, slot, t, data);
    ms := ms + [Open] + [Submit(1, ReadOf(t))];
    ps, q := ReadFromBase(cfg, p, n, t, data);
    z := BaseReadEnds(cfg, q, n, t, data, junk);
  }

  lemma CrossedRead(cfg: Config, s: Sys, b: nat, t: nat, data: Data, junk: Data)
    returns (p: Sys, ps: seq<Label>, q: Sys, z: Sys)
    requires Reachable(cfg, s) && Shape(cfg, s) && AtRest(cfg, s, [], t, data) && Adjoins(cfg, b, t) && !cfg.copyOnRead
    ensures Path(cfg, s, [Submit(0, CrossRead(b, t))], p) && Path(cfg, p, ps, q)
    ensures Path(cfg, q, [ImageReadDone(|s.reqs|, true, junk)], z)
    ensures |ps| == 3 && ps[0] == Serve(0, true) && Heads(p, 0, |s.reqs|)
    ensures ReadingAt(p, 0, |s.reqs|, CrossRead(b, t), Waiting, t, data) && t in Range(CrossRead(b, t))
    ensures ReadingAt(q, 0, |s.reqs|, CrossRead(b, t), ImageRead(1, 1), t, data)
    ensures EndsWith(z, |s.reqs|, CrossRead(b, t), t, data, junk)
  {
    p := AcrossArrives(cfg, s, b, t, data);
    ps, q := ReadFromImage(cfg, p, |s.reqs|, b, t, data);
    z := ImageReadEnds(cfg, q, |s.reqs|, b, t, data, junk);
  }

  /** A run with a read that went through `p`, before its dispatch, and `q`, before its last step. */
  lemma ReadRun(cfg: Config, ss: seq<Sys>, ls: seq<Label>, ms: seq<Label>, p: Sys, c: nat, n: nat,
                ps: seq<Label>, q: Sys, l: Label, z: Sys, t: nat)
    returns (ss': seq<Sys>, ls': seq<Label>, d: nat)
    requires IsRun(cfg, ss, ls) && Path(cfg, ss[|ls|], ms, p) && Path(cfg, p, ps, q) && Path(cfg, q, [l], z)
    requires |ps| == 3 && ps[0] == Serve(c, true) && Heads(p, c, n) && n < |p.reqs| && p.reqs[n].req.kind == Read
    requires t in Range(p.reqs[n].req) && p.hist.session == z.hist.session
    requires n < |q.reqs| && ReadInFlight(q.reqs[n].phase) && n < |z.reqs| && z.reqs[n].phase.ReadOk?
    ensures IsRun(cfg, ss', ls') && ss <= ss' && ls <= ls' && d == |ls| + |ms| && |ls'| == d + 4 && ss'[d + 4] == z
    ensures ReadDone(ss', ls', d, d + 3, n, t) && ss'[d] == p
  {
    d := |ls| + |ms|;
    var s1 := RunTook(cfg, ss, ls, ms, p);
    var s2 := RunTook(cfg, s1, ls + ms, ps, q);
    ss' := RunTook(cfg, s2, ls + ms + ps, [l], z);
    ls' := ls + ms + ps + [l];
    assert ls'[d] == ps[0] && ss'[d] == s1[d] && ss'[d + 3] == s2[d + 3];
  }

  /** A run that goes on with a read of block `t` that ends well and returns `junk`; the log holds one write. */
  ghost predicate GoesWrong(cfg: Config, ss: seq<Sys>, ls: seq<Label>, ss': seq<Sys>, ls': seq<Label>, d: nat, r: nat,
                            t: nat, data: Data, junk: Data) {
    && IsRun(cfg, ss', ls') && ss <= ss' && ls <= ls' && |ls| <= d && ReadDone(ss', ls', d, d + 3, r, t)
    && ss'[d].hist.session == 0 && ss'[d + 4].hist.log == [Entry(t, data)]
    && t in ss'[d + 4].reqs[r].phase.got && ss'[d + 4].reqs[r].phase.got[t].data == junk
  }

  lemma OverwrittenRun(cfg: Config, ss: seq<Sys>, ls: seq<Label>, b: nat, t: nat, data: Data, junk: Data)
    returns (ss': seq<Sys>, ls': seq<Label>, d: nat, r: nat)
    requires IsRun(cfg, ss, ls) && AtRest(cfg, ss[|ls|], [], t, data)
    requires Adjoins(cfg, b, t) && Fits(cfg, Stripe(cfg, b))
    ensures GoesWrong(cfg, ss, ls, ss', ls', d, r, t, data, junk)
  {
    LastReachable(cfg, ss, ls);
    var ms, p, n, ps, q, z := OverwrittenRead(cfg, ss[|ls|], b, t, data, junk);
    r := n;
    ss', ls', d := ReadRun(cfg, ss, ls, ms, p, 1, n, ps, q, BaseReadDone(n, true), z, t);
  }

  lemma CrossedRun(cfg: Config, ss: seq<Sys>, ls: seq<Label>, b: nat, t: nat, data: Data, junk: Data)
    returns (ss': seq<Sys>, ls': seq<Label>, d: nat, r: nat)
    requires IsRun(cfg, ss, ls) && AtRest(cfg, ss[|ls|], [], t, data) && Adjoins(cfg, b, t) && !cfg.copyOnRead
    ensures GoesWrong(cfg, ss, ls, ss', ls', d, r, t, data, junk)
  {
    LastReachable(cfg, ss, ls);
    r := |ss[|ls|].reqs|;
    var p, ps, q, z := CrossedRead(cfg, ss[|ls|], b, t, data, junk);
    var l := ImageReadDone(r, true, junk);
    ss', ls', d := ReadRun(cfg, ss, ls, [Submit(0, CrossRead(b, t))], p, 0, r, ps, q, l, z, t);
  }

  /** Written data can be replaced by a copy, or passed over by a read from the image. */
  ghost predicate Exposed(cfg: Config)
    requires 0 < cfg.stripeBlocks
  {
    !TailApart(cfg) || !ReadsApart(cfg)
  }

  /** A block past the image that an exposed configuration endangers. */
  ghost predicate Endangered(cfg: Config, b: nat, t: nat)
    requires 0 < cfg.stripeBlocks
  {
    Adjoins(cfg, b, t) && (Fits(cfg, Stripe(cfg, b)) || !cfg.copyOnRead)
  }

  lemma WrongReadRun(cfg: Config, ss: seq<Sys>, ls: seq<Label>, b: nat, t: nat, data: Data, junk: Data)
    returns (ss': seq<Sys>, ls': seq<Label>, d: nat, r: nat)
    requires IsRun(cfg, ss, ls) && AtRest(cfg, ss[|ls|], [], t, data) && Endangered(cfg, b, t)
    ensures GoesWrong(cfg, ss, ls, ss', ls', d, r, t, data, junk)
  {
    if Fits(cfg, Stripe(cfg, b)) {
      ss', ls', d, r := OverwrittenRun(cfg, ss, ls, b, t, data, junk);
    } else {
      ss', ls', d, r := CrossedRun(cfg, ss, ls, b, t, data, junk);
    }
  }

  lemma LastReachable(cfg: Config, ss: seq<Sys>, ls: seq<Label>)
    requires IsRun(cfg, ss, ls)
    ensures Reachable(cfg, ss[|ls|]) && Shape(cfg, ss[|ls|])
  {
    RunSound(cfg, ss, ls, |ls|);
  }

}
