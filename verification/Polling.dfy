/** What a poll does: the steps it is made of, what they leave alone, and what becomes of the requests. */
module Polling {
  import opened Types
  import opened Protocol
  import opened Frames
  import opened Order
  import opened Resources
  import opened Runs
  import opened Traces

  const EAGAIN: int := 11
  const MAX_BATCH: nat := 64

  /** A request of the user; `id` tells apart requests that ask for the same. */
  datatype BdevIo = BdevIo(id: nat, req: Request)

  /**
   A completion taken from the io_uring, with what its handler meets: `ret` is the answer to
   submitting the stripe to the base device, `junk` what a buffer holds past the end of the image.
   */
  datatype Cqe = OfStripe(k: nat, res: int, ret: int) | OfIo(io: BdevIo, res: int, junk: Data)

  /** Whether a read gets its buffer at once; then `ret` answers the read of the base device, if it goes there. */
  datatype Buffer = Later | Now(ok: bool, ret: int)

  /** A completion that the kernel can deliver in `s`. */
  ghost predicate Deliverable(cfg: Config, s: Sys, c: nat, e: Cqe) {
    match e
    case OfStripe(k, _, ret) =>
      && InSlot(s, c, k) && s.chans[c].slots[k].Reading?
      && (ret == 0 ==> Fits(cfg, s.chans[c].slots[k].stripe))
    case OfIo(io, _, _) =>
      && io.id < |s.reqs| && s.reqs[io.id].req == io.req
      && s.reqs[io.id].chan == c && s.reqs[io.id].phase.ImageRead?
      && c < |s.chans| && io.id !in s.chans[c].prepared
  }

  predicate EndedWell(e: Cqe) {
    e.res >= 0 && (e.OfStripe? ==> e.ret == 0)
  }

  predicate EndsWell(cqes: seq<Cqe>) {
    cqes != [] && EndedWell(cqes[|cqes| - 1])
  }

  /** What the first `n` completions report: the last of them decides. */
  function ResultOf(cqes: seq<Cqe>, n: nat): int
    requires n <= |cqes|
  {
    if n == 0 then 0 else if EndedWell(cqes[n - 1]) then 1 else -1
  }

  predicate SameOp(a: Cqe, b: Cqe) {
    (a.OfStripe? && b.OfStripe? && a.k == b.k) || (a.OfIo? && b.OfIo? && a.io.id == b.io.id)
  }

  /** No operation completes twice in a batch. */
  ghost predicate Separate(cqes: seq<Cqe>) {
    forall i, j | 0 <= i < j < |cqes| :: !SameOp(cqes[i], cqes[j])
  }

  /** What asking the io_uring for completions gives: an error, or as many as `batch` says. */
  ghost predicate Delivered(cfg: Config, s: Sys, c: nat, batch: int, cqes: seq<Cqe>) {
    && |cqes| == (if batch < 0 then 0 else batch) <= MAX_BATCH
    && Separate(cqes) && forall j | 0 <= j < |cqes| :: Deliverable(cfg, s, c, cqes[j])
  }

  /** The poller has started every fetch it can. */
  ghost predicate AllStarted(ch: Chan) {
    ch.queue == [] || forall k | 0 <= k < |ch.slots| :: ch.slots[k] != Free
  }

  /**
   The poller has served every request it can: the first one left is a read with 24 others in flight, or a read or
   write of the image whose stripe is being fetched.
   */
  ghost predicate AllServed(cfg: Config, s: Sys, c: nat)
    requires c < |s.chans|
  {
    s.chans[c].io != [] ==>
      && s.chans[c].io[0] < |s.reqs|
      && var req := s.reqs[s.chans[c].io[0]].req; AtLimit(s.reqs, c, req) || StartsIn(cfg, s.status, req, Inflight)
  }

  lemma HeadWaits(cfg: Config, s: Sys, c: nat)
    requires Reachable(cfg, s) && Shape(cfg, s) && (HeadIs(cfg, s, c, AtReadLimit) || HeadIs(cfg, s, c, Blocked))
    ensures AllServed(cfg, s, c)
  {
    HeadOf(cfg, s, c);
    ReachableSound(cfg, s);
    DecideMeans(cfg, s.status, s.chans[c].activeReads, s.reqs[s.chans[c].io[0]].req);
  }

  /** Nothing is left in the lists of the channel that the poller could act on. */
  ghost predicate Drained(cfg: Config, s: Sys, c: nat) {
    c < |s.chans| && AllStarted(s.chans[c]) && Shape(cfg, s) && AllServed(cfg, s, c)
  }

  /** The end of a poll changes nothing about that. */
  lemma StillDrained(cfg: Config, s: Sys, t: Sys, c: nat)
    requires Shape(cfg, s) && Shape(cfg, t) && c < |s.chans| && AllStarted(s.chans[c]) && AllServed(cfg, s, c)
    requires |t.chans| == |s.chans| && t == s.(chans := s.chans[c := t.chans[c]])
    requires t.chans[c] == s.chans[c].(polling := t.chans[c].polling, prepared := t.chans[c].prepared)
    ensures Drained(cfg, t, c)
  {
  }

  /** The first request on a list. */
  lemma HeadOf(cfg: Config, s: Sys, c: nat)
    requires Shape(cfg, s) && c < |s.chans| && s.chans[c].io != []
    ensures s.chans[c].io[0] < |s.reqs| && Stripe(cfg, s.reqs[s.chans[c].io[0]].req.start) < MAX_STRIPES
    ensures Reachable(cfg, s) ==> s.reqs[s.chans[c].io[0]].chan == c
  {
    assert ChanShape(cfg, s.chans[c], |s.reqs|);
    assert IoShape(cfg, s.reqs[s.chans[c].io[0]], |s.chans|);
    if Reachable(cfg, s) {
      ReachableSound(cfg, s);
      assert ChanOrder(s.chans[c], c, s.reqs);
    }
  }

  lemma StartInTable(cfg: Config, s: Sys, i: nat)
    requires Shape(cfg, s) && i < |s.reqs|
    ensures Stripe(cfg, s.reqs[i].req.start) < MAX_STRIPES && s.reqs[i].chan < |s.chans|
  {
    assert IoShape(cfg, s.reqs[i], |s.chans|);
  }

  lemma TookAlone(cfg: Config, s: Sys, i: nat, ok: bool, accepted: bool)
    requires Reachable(cfg, s) && Shape(cfg, s) && i < |s.reqs| && s.reqs[i].phase.Buffering?
    ensures Took(cfg, s, [GetBuf(i, ok, accepted)], GetBufStep(cfg, s, i, ok, accepted))
  {
    TookFirst(cfg, s, GetBuf(i, ok, accepted));
  }

  /** A read that gets its buffer always finds an entry in the io_uring. */
  lemma EntryForRead(cfg: Config, s: Sys, i: nat, c: nat)
    requires Reachable(cfg, s) && c < |s.chans| && i < |s.reqs| && s.reqs[i].chan == c && s.reqs[i].phase.Buffering?
    ensures Shape(cfg, s) && RingEntries(s, c) < URING_QUEUE_SIZE
  {
    ReachableSound(cfg, s);
    RingHasRoom(cfg, s, c);
  }

  /** The state after the handler of a completion. */
  ghost function Handled(cfg: Config, s: Sys, c: nat, e: Cqe): Sys
    requires Shape(cfg, s) && c < |s.chans| && Deliverable(cfg, s, c, e)
  {
    match e
    case OfStripe(k, res, ret) =>
      assert SlotShape(cfg, s.chans[c].slots[k]);
      FetchReadStep(cfg, s, c, k, res >= 0 && ret == 0)
    case OfIo(io, res, junk) => ImageReadDoneStep(cfg, s, io.id, res >= 0, junk)
  }

  function LabelOf(c: nat, e: Cqe): Label {
    match e
    case OfStripe(k, res, ret) => FetchRead(c, k, res >= 0, ret == 0)
    case OfIo(io, res, junk) => ImageReadDone(io.id, res >= 0, junk)
  }

  /** What completions leave alone: the lists of a channel and what waits in them or in the io_uring. */
  ghost function Rest(s: Sys, c: nat): (nat, Chan)
    requires c < |s.chans|
  {
    (|s.chans|, s.chans[c].(slots := [], activeReads := 0))
  }

  /** So a poll finds afterwards in its lists what it found before. */
  lemma RestFinds(s: Sys, t: Sys, c: nat)
    requires c < |s.chans| && c < |t.chans| && Rest(t, c) == Rest(s, c)
    ensures Began(t.chans[c]) == Began(s.chans[c]) && t.chans[c].polling == s.chans[c].polling
  {
  }

  lemma TookHandled(cfg: Config, s: Sys, ls: seq<Label>, u: Sys, c: nat, e: Cqe)
    requires Took(cfg, s, ls, u) && Shape(cfg, u) && c < |u.chans| && Deliverable(cfg, u, c, e)
    ensures Took(cfg, s, ls + [LabelOf(c, e)], Handled(cfg, u, c, e))
    ensures Rest(Handled(cfg, u, c, e), c) == Rest(u, c)
  {
    match e
    case OfStripe(k, res, ret) => TookFetchRead(cfg, s, ls, u, c, k, res >= 0, ret == 0);
    case OfIo(io, res, junk) => TookImageRead(cfg, s, ls, u, io.id, res >= 0, junk);
  }

  lemma StillDeliverable(cfg: Config, s: Sys, c: nat, e: Cqe, f: Cqe)
    requires Shape(cfg, s) && c < |s.chans| && Deliverable(cfg, s, c, e) && Deliverable(cfg, s, c, f) && !SameOp(e, f)
    ensures Deliverable(cfg, Handled(cfg, s, c, e), c, f)
  {
  }

  // ---------------------------------------------------------------- the steps of a poll

  /** A step that the poller of channel `c` takes. */
  predicate OfPoll(l: Label, c: nat, reqs: seq<Io>) {
    match l
    case FetchRead(d, _, _, _) => d == c
    case StartFetch(d, _) => d == c
    case Reject(d) => d == c
    case Bug(d) => d == c
    case Serve(d, _) => d == c
    case Ring(d, _) => d == c
    case GetBuf(i, _, _) => i < |reqs| && reqs[i].chan == c
    case ImageReadDone(i, _, _) => i < |reqs| && reqs[i].chan == c
    case _ => false
  }

  /**
   From `s` to `t` nothing changes but channel `c`, the phases of its requests, stripes that failed and what
   is completed; requests leave the list of the channel from its front.
   */
  ghost predicate Kept(s: Sys, t: Sys, c: nat) {
    && t.headers == s.headers && t.fetched == s.fetched && t.flushed == s.flushed && t.disk == s.disk
    && t.hist == s.hist.(done := t.hist.done) && s.hist.done <= t.hist.done
    && c < |s.chans| == |t.chans| && t.chans == s.chans[c := t.chans[c]]
    && t.chans[c].arrived == s.chans[c].arrived && s.chans[c].served <= t.chans[c].served
    && t.chans[c].served + t.chans[c].io == s.chans[c].served + s.chans[c].io
    && |t.reqs| == |s.reqs|
    && forall i | 0 <= i < |s.reqs| ::
         && t.reqs[i] == s.reqs[i].(phase := t.reqs[i].phase)
         && (s.reqs[i].chan != c ==> t.reqs[i] == s.reqs[i])
  }

  lemma KeptThen(s: Sys, u: Sys, t: Sys, c: nat)
    requires Kept(s, u, c) && Kept(u, t, c)
    ensures Kept(s, t, c)
  {
    forall i | 0 <= i < |s.reqs|
      ensures t.reqs[i] == s.reqs[i].(phase := t.reqs[i].phase)
    {
      assert u.reqs[i] == s.reqs[i].(phase := u.reqs[i].phase);
    }
  }

  lemma KeptFetch(cfg: Config, s: Sys, l: Label, c: nat)
    requires Shape(cfg, s) && Enabled(cfg, s, l) && (l.FetchRead? || l.StartFetch? || l.Ring?) && l.c == c
    ensures Kept(s, Step(cfg, s, l), c)
  {
  }

  lemma KeptPop(cfg: Config, s: Sys, l: Label, c: nat)
    requires Good(cfg, s) && Enabled(cfg, s, l) && (l.Reject? || l.Bug? || l.Serve?) && l.c == c
    ensures Kept(s, Step(cfg, s, l), c)
  {
    PopsHead(cfg, s, l);
    assert ChanOrder(s.chans[c], c, s.reqs);
    PopDone(cfg, s, l);
  }

  lemma PopDone(cfg: Config, s: Sys, l: Label)
    requires Shape(cfg, s) && Enabled(cfg, s, l) && (l.Reject? || l.Bug? || l.Serve?)
    ensures s.hist.done <= Step(cfg, s, l).hist.done
  {
  }

  lemma KeptBuffer(cfg: Config, s: Sys, i: nat, ok: bool, accepted: bool)
    requires 0 < cfg.stripeBlocks && i < |s.reqs| && s.reqs[i].phase.Buffering? && s.reqs[i].chan < |s.chans|
    requires Stripe(cfg, s.reqs[i].req.start) < |s.status|
    ensures Kept(s, GetBufStep(cfg, s, i, ok, accepted), s.reqs[i].chan)
  {
  }

  lemma KeptImage(cfg: Config, s: Sys, i: nat, ok: bool, junk: Data)
    requires i < |s.reqs| && s.reqs[i].phase.ImageRead? && s.reqs[i].chan < |s.chans|
    ensures Kept(s, ImageReadDoneStep(cfg, s, i, ok, junk), s.reqs[i].chan)
  {
  }

  lemma KeptRead(cfg: Config, s: Sys, l: Label)
    requires Shape(cfg, s) && Enabled(cfg, s, l) && (l.GetBuf? || l.ImageReadDone?)
    ensures Kept(s, RequestStep(cfg, s, l), s.reqs[l.i].chan)
  {
    assert IoShape(cfg, s.reqs[l.i], |s.chans|);
    if l.GetBuf? {
      KeptBuffer(cfg, s, l.i, l.ok, l.accepted);
    } else {
      KeptImage(cfg, s, l.i, l.ok, l.junk);
    }
  }

  lemma KeptStep(cfg: Config, s: Sys, l: Label, c: nat)
    requires Good(cfg, s) && Enabled(cfg, s, l) && OfPoll(l, c, s.reqs)
    ensures Kept(s, Step(cfg, s, l), c)
  {
    if l.GetBuf? || l.ImageReadDone? {
      StepIsRequest(cfg, s, l);
      KeptRead(cfg, s, l);
    } else if l.Reject? || l.Bug? || l.Serve? {
      KeptPop(cfg, s, l, c);
    } else {
      KeptFetch(cfg, s, l, c);
    }
  }

  lemma {:induction false} KeptTo(cfg: Config, us: seq<Sys>, ls: seq<Label>, n: nat, c: nat)
    requires AllGo(cfg, us, ls) && Reachable(cfg, us[0]) && n <= |ls| && c < |us[0].chans|
    requires forall j | 0 <= j < |ls| :: OfPoll(ls[j], c, us[0].reqs)
    ensures Reachable(cfg, us[n]) && Kept(us[0], us[n], c)
  {
    if n == 0 {
    } else {
      KeptTo(cfg, us, ls, n - 1, c);
      assert Goes(cfg, us, ls, n - 1) && OfPoll(ls[n - 1], c, us[n - 1].reqs);
      KeptNext(cfg, us[n - 1], ls[n - 1], c);
      KeptThen(us[0], us[n - 1], us[n], c);
    }
  }

  lemma KeptNext(cfg: Config, s: Sys, l: Label, c: nat)
    requires Reachable(cfg, s) && Shape(cfg, s) && Enabled(cfg, s, l) && OfPoll(l, c, s.reqs)
    ensures Reachable(cfg, Step(cfg, s, l)) && Kept(s, Step(cfg, s, l), c)
  {
    ReachableSound(cfg, s);
    KeptStep(cfg, s, l, c);
    ReachableStep(cfg, s, l);
  }

  /** The steps `ls` of the poller of channel `c` lead from the reachable state `s` to `t`. */
  ghost predicate Polls(cfg: Config, s: Sys, ls: seq<Label>, t: Sys, c: nat) {
    && Reachable(cfg, s) && c < |s.chans| && Took(cfg, s, ls, t)
    && forall j | 0 <= j < |ls| :: OfPoll(ls[j], c, s.reqs)
  }

  /** Whatever its steps, a poll of channel `c` keeps to that channel. */
  lemma PollKeeps(cfg: Config, s: Sys, ls: seq<Label>, t: Sys, c: nat)
    requires Polls(cfg, s, ls, t, c)
    ensures Kept(s, t, c)
  {
    var us :| Via(cfg, us, s, ls, t);
    KeptTo(cfg, us, ls, |ls|, c);
  }

  lemma PollsNone(cfg: Config, s: Sys, c: nat)
    requires Reachable(cfg, s) && c < |s.chans|
    ensures Shape(cfg, s) && Polls(cfg, s, [], s, c)
  {
    ReachableShape(cfg, s);
    TookNone(cfg, s);
  }

  lemma PollsMore(cfg: Config, s: Sys, ls: seq<Label>, u: Sys, l: Label, t: Sys, c: nat)
    requires Polls(cfg, s, ls, u, c) && OfPoll(l, c, u.reqs) && Took(cfg, s, ls + [l], t)
    ensures Polls(cfg, s, ls + [l], t, c)
  {
    PollKeeps(cfg, s, ls, u, c);
    assert OfPoll(l, c, s.reqs);
  }

  lemma PollHandled(cfg: Config, s: Sys, ls: seq<Label>, u: Sys, c: nat, e: Cqe)
    requires Polls(cfg, s, ls, u, c) && c < |u.chans| && Deliverable(cfg, u, c, e)
    ensures Polls(cfg, s, ls + [LabelOf(c, e)], Handled(cfg, u, c, e), c)
    ensures Rest(Handled(cfg, u, c, e), c) == Rest(u, c)
  {
    TookHandled(cfg, s, ls, u, c, e);
    PollsMore(cfg, s, ls, u, LabelOf(c, e), Handled(cfg, u, c, e), c);
  }

  lemma PollStarts(cfg: Config, s: Sys, ls: seq<Label>, u: Sys, c: nat, k: nat)
    requires Polls(cfg, s, ls, u, c) && InSlot(u, c, k) && u.chans[c].queue != [] && u.chans[c].slots[k] == Free
    ensures Polls(cfg, s, ls + [StartFetch(c, k)], StartFetchStep(u, c, k), c)
  {
    TookStart(cfg, s, ls, u, c, k);
    PollsMore(cfg, s, ls, u, StartFetch(c, k), StartFetchStep(u, c, k), c);
  }

  lemma PollFails(cfg: Config, s: Sys, ls: seq<Label>, u: Sys, c: nat, v: Verdict)
    requires Polls(cfg, s, ls, u, c) && HeadIs(cfg, u, c, v) && (v.Refused? || v.Unexpected?)
    ensures Polls(cfg, s, ls + [if v.Refused? then Reject(c) else Bug(c)], RejectStep(u, c), c)
  {
    if v.Refused? {
      TookReject(cfg, s, ls, u, c);
      PollsMore(cfg, s, ls, u, Reject(c), RejectStep(u, c), c);
    } else {
      TookOne(cfg, s, ls, u, Bug(c));
      PollsMore(cfg, s, ls, u, Bug(c), RejectStep(u, c), c);
    }
  }

  lemma PollServes(cfg: Config, s: Sys, ls: seq<Label>, u: Sys, c: nat, accepted: bool)
    requires Polls(cfg, s, ls, u, c) && HeadIs(cfg, u, c, Servable)
    ensures Polls(cfg, s, ls + [Serve(c, accepted)], ServeStep(cfg, u, c, accepted), c)
  {
    TookServe(cfg, s, ls, u, c, accepted);
    PollsMore(cfg, s, ls, u, Serve(c, accepted), ServeStep(cfg, u, c, accepted), c);
  }

  lemma PollBuffers(cfg: Config, s: Sys, ls: seq<Label>, u: Sys, c: nat, i: nat, ok: bool, accepted: bool)
    requires Polls(cfg, s, ls, u, c) && i < |u.reqs| && u.reqs[i].chan == c && u.reqs[i].phase.Buffering?
    ensures Stripe(cfg, u.reqs[i].req.start) < |u.status| && c < |u.chans|
    ensures Polls(cfg, s, ls + [GetBuf(i, ok, accepted)], GetBufStep(cfg, u, i, ok, accepted), c)
  {
    StartInTable(cfg, u, i);
    TookGetBuf(cfg, s, ls, u, i, ok, accepted);
    PollsMore(cfg, s, ls, u, GetBuf(i, ok, accepted), GetBufStep(cfg, u, i, ok, accepted), c);
  }

  lemma PollRings(cfg: Config, s: Sys, ls: seq<Label>, u: Sys, c: nat, ok: bool)
    requires Polls(cfg, s, ls, u, c) && c < |u.chans| && Began(u.chans[c])
    requires u.chans[c].polling || u.chans[c].prepared != {}
    ensures Polls(cfg, s, ls + [Ring(c, ok)], RingStep(u, c, ok), c)
  {
    TookRing(cfg, s, ls, u, c, ok);
    PollsMore(cfg, s, ls, u, Ring(c, ok), RingStep(u, c, ok), c);
  }

  // ---------------------------------------------------------------- what becomes of the queue

  /** The first queued stripes are read into the entries `used`, in order; nothing else moves. */
  ghost predicate Started(a: Chan, b: Chan, used: seq<nat>) {
    && |used| <= |a.queue| && b.queue == a.queue[|used|..] && |b.slots| == |a.slots|
    && (forall j | 0 <= j < |used| ::
          used[j] < |a.slots| && a.slots[used[j]] == Free && b.slots[used[j]] == Reading(a.queue[j]))
    && (forall k: nat | k < |a.slots| && k !in used :: b.slots[k] == a.slots[k])
  }

  /** `used` are the first idle entries. */
  ghost predicate FirstFree(slots: seq<Slot>, used: seq<nat>) {
    && (forall i, j | 0 <= i < j < |used| :: used[i] < used[j])
    && forall j, k: nat | 0 <= j < |used| && k < used[j] && k < |slots| && slots[k] == Free :: k in used
  }

  /** `ms` is `ls` followed by the starts of fetches into the entries `used`. */
  ghost predicate ThenStarts(ls: seq<Label>, ms: seq<Label>, c: nat, used: seq<nat>) {
    && |ms| == |ls| + |used| && ls <= ms
    && forall j | 0 <= j < |used| :: ms[|ls| + j] == StartFetch(c, used[j])
  }

  /** From `s` to `t` channel `c` starts fetches, which also submits prepared reads; nothing else changes. */
  ghost predicate Starts(s: Sys, t: Sys, c: nat, used: seq<nat>) {
    && c < |s.chans| == |t.chans| && t == s.(chans := s.chans[c := t.chans[c]])
    && Started(s.chans[c], t.chans[c], used)
    && t.chans[c].io == s.chans[c].io && (t.chans[c].polling <==> s.chans[c].polling || used != [])
    && t.chans[c].prepared == (if used == [] then s.chans[c].prepared else {})
    && t.chans[c].started == s.chans[c].started + |used|
  }

  /** The poll has come from `u` to `t` by starting fetches into the entries `used`. */
  ghost predicate Starting(cfg: Config, s: Sys, ls: seq<Label>, u: Sys, ms: seq<Label>, t: Sys, c: nat,
                           used: seq<nat>) {
    Polls(cfg, s, ms, t, c) && ThenStarts(ls, ms, c, used) && Starts(u, t, c, used)
  }

  lemma StartsMore(s: Sys, u: Sys, c: nat, used: seq<nat>, k: nat)
    requires Starts(s, u, c, used) && InSlot(u, c, k) && u.chans[c].slots[k] == Free && u.chans[c].queue != []
    ensures Starts(s, StartFetchStep(u, c, k), c, used + [k])
  {
    var a, b := s.chans[c], StartFetchStep(u, c, k).chans[c];
    assert k !in used;
    assert u.chans[c].queue[0] == a.queue[|used|];
  }

  lemma StartingMore(cfg: Config, s: Sys, ls: seq<Label>, u: Sys, ms: seq<Label>, v: Sys, c: nat, free: seq<nat>,
                     i: nat)
    requires i < |free| && Starting(cfg, s, ls, u, ms, v, c, free[..i])
    requires InSlot(v, c, free[i]) && v.chans[c].queue != [] && v.chans[c].slots[free[i]] == Free
    ensures Starting(cfg, s, ls, u, ms + [StartFetch(c, free[i])], StartFetchStep(v, c, free[i]), c, free[..i + 1])
  {
    PollStarts(cfg, s, ms, v, c, free[i]);
    StartsMore(u, v, c, free[..i], free[i]);
    assert free[..i + 1] == free[..i] + [free[i]];
  }

  // ---------------------------------------------------------------- what becomes of the requests

  /** How an image read ends; `n` block writes precede its end. */
  function EndOfRead(cfg: Config, io: Io, n: nat, res: int, junk: Data): Phase
    requires io.phase.ImageRead?
  {
    if res >= 0 then ReadOk(io.phase.born, ImageBlocks(cfg, io.req, io.phase.at, junk), n) else Error
  }

  predicate IsFor(e: Cqe, i: nat) {
    e.OfIo? && e.io.id == i
  }

  /** The image reads that completions are for have ended as they say. */
  ghost predicate EndsEach(cfg: Config, s: Sys, t: Sys, cqes: seq<Cqe>) {
    && |t.reqs| == |s.reqs|
    && forall j | 0 <= j < |cqes| && cqes[j].OfIo? ::
         var e := cqes[j];
         && e.io.id < |s.reqs| && s.reqs[e.io.id].phase.ImageRead?
         && t.reqs[e.io.id].phase == EndOfRead(cfg, s.reqs[e.io.id], |s.hist.log|, e.res, e.junk)
  }

  /** No other request has changed. */
  ghost predicate Answered(cfg: Config, s: Sys, t: Sys, cqes: seq<Cqe>) {
    && EndsEach(cfg, s, t, cqes)
    && forall i: nat | i < |s.reqs| && (forall j | 0 <= j < |cqes| :: !IsFor(cqes[j], i)) :: t.reqs[i] == s.reqs[i]
  }

  /** One completion more. */
  lemma AnsweredMore(cfg: Config, s: Sys, u: Sys, cqes: seq<Cqe>, n: nat, c: nat)
    requires n < |cqes| && Answered(cfg, s, u, cqes[..n]) && u.hist.log == s.hist.log && Separate(cqes)
    requires Shape(cfg, u) && c < |u.chans| && Deliverable(cfg, u, c, cqes[n])
    ensures Answered(cfg, s, Handled(cfg, u, c, cqes[n]), cqes[..n + 1])
  {
    var e, t, done := cqes[n], Handled(cfg, u, c, cqes[n]), cqes[..n + 1];
    assert forall j | 0 <= j < n :: done[j] == cqes[..n][j];
    if e.OfIo? {
      assert forall j | 0 <= j < n :: !IsFor(cqes[..n][j], e.io.id) by {
        assert forall j | 0 <= j < n :: !SameOp(cqes[j], e);
      }
      assert u.reqs[e.io.id] == s.reqs[e.io.id];
    }
    forall i: nat | i < |s.reqs| && (forall j | 0 <= j < |done| :: !IsFor(done[j], i))
      ensures t.reqs[i] == s.reqs[i]
    {
      assert !IsFor(done[n], i) && forall j | 0 <= j < n :: !IsFor(cqes[..n][j], i);
    }
  }

  /** The first `n` completions have been handled, by the steps `ls`. */
  ghost predicate CompletedFirst(cfg: Config, s: Sys, ls: seq<Label>, t: Sys, c: nat, cqes: seq<Cqe>, n: nat) {
    && Polls(cfg, s, ls, t, c) && c < |t.chans| && Rest(t, c) == Rest(s, c)
    && |ls| == n <= |cqes| && (forall j | 0 <= j < n :: ls[j] == LabelOf(c, cqes[j]))
    && Answered(cfg, s, t, cqes[..n]) && forall j | n <= j < |cqes| :: Deliverable(cfg, t, c, cqes[j])
  }

  lemma CompletedMore(cfg: Config, s: Sys, ls: seq<Label>, u: Sys, c: nat, cqes: seq<Cqe>, n: nat)
    requires CompletedFirst(cfg, s, ls, u, c, cqes, n) && n < |cqes| && Separate(cqes)
    ensures CompletedFirst(cfg, s, ls + [LabelOf(c, cqes[n])], Handled(cfg, u, c, cqes[n]), c, cqes, n + 1)
  {
    PollHandled(cfg, s, ls, u, c, cqes[n]);
    PollKeeps(cfg, s, ls, u, c);
    AnsweredMore(cfg, s, u, cqes, n, c);
    forall j | n < j < |cqes|
      ensures Deliverable(cfg, Handled(cfg, u, c, cqes[n]), c, cqes[j])
    {
      StillDeliverable(cfg, u, c, cqes[n], cqes[j]);
    }
  }

  /** What becomes of a request that leaves the list: `n` block writes precede its dispatch. */
  function PhaseAfter(cfg: Config, status: seq<Status>, n: nat, req: Request, accepted: bool, buffer: Buffer): Phase
    requires 0 < cfg.stripeBlocks && Stripe(cfg, req.start) < |status|
  {
    var onImage, st := req.kind != Flush && req.start < |cfg.image|, status[req.start / cfg.stripeBlocks];
    if onImage && (st == Failed || (st == NotFetched && (req.kind == Write || cfg.copyOnRead))) then Error
    else
      match req.kind
      case Read =>
        if buffer.Later? then Buffering(n)
        else if !buffer.ok then Error
        else if onImage && st != Fetched then ImageRead(n, n)
        else if buffer.ret == 0 then BaseRead(n, Range(req), map[])
        else Error
      case Write => if accepted then Writing(Range(req), map[]) else Lost
      case Flush => if cfg.noSync then FlushSkipped else if accepted then DataFlush(Range(req)) else Error
  }

  /** From `s` to `t` request `i`, which does not have to wait for a fetch, gets its outcome. */
  ghost predicate Gets(cfg: Config, s: Sys, t: Sys, i: nat, accepted: bool, buffer: Buffer) {
    && 0 < cfg.stripeBlocks && i < |s.reqs| && i < |t.reqs| && Stripe(cfg, s.reqs[i].req.start) < |t.status|
    && !StartsIn(cfg, t.status, s.reqs[i].req, Inflight)
    && t.reqs[i].phase == PhaseAfter(cfg, t.status, |s.hist.log|, s.reqs[i].req, accepted, buffer)
  }

  /** From `s` to `t` the first request of channel `c` is served and nothing else happens to requests or stripes. */
  ghost predicate ServedOne(cfg: Config, s: Sys, t: Sys, c: nat, accepts: nat -> bool, buffers: nat -> Buffer) {
    && t.status == s.status && t.hist.log == s.hist.log
    && c < |s.chans| == |t.chans| && s.chans[c].io != [] && t.chans[c].io == s.chans[c].io[1..]
    && var i := s.chans[c].io[0];
       && Gets(cfg, s, t, i, accepts(i), buffers(i)) && PhaseOnly(s.reqs, t.reqs, i)
  }

  /** It is served in a poll that goes on, and no fetch is touched. */
  ghost predicate ServesHead(cfg: Config, s: Sys, t: Sys, c: nat, accepts: nat -> bool, buffers: nat -> Buffer) {
    && ServedOne(cfg, s, t, c, accepts, buffers)
    && t.chans[c].polling && t.chans[c].queue == s.chans[c].queue && t.chans[c].slots == s.chans[c].slots
  }

  lemma RejectServes(cfg: Config, s: Sys, c: nat, accepts: nat -> bool, buffers: nat -> Buffer)
    requires Shape(cfg, s) && (HeadIs(cfg, s, c, Refused) || HeadIs(cfg, s, c, Unexpected))
    ensures ServesHead(cfg, s, RejectStep(s, c), c, accepts, buffers)
  {
    HeadOf(cfg, s, c);
    DecideMeans(cfg, s.status, s.chans[c].activeReads, s.reqs[s.chans[c].io[0]].req);
  }

  lemma DispatchServes(cfg: Config, s: Sys, c: nat, accepts: nat -> bool, buffers: nat -> Buffer)
    requires Shape(cfg, s) && HeadIs(cfg, s, c, Servable)
    requires var i := s.chans[c].io[0]; s.reqs[i].req.kind == Read ==> buffers(i).Later?
    ensures ServesHead(cfg, s, ServeStep(cfg, s, c, accepts(s.chans[c].io[0])), c, accepts, buffers)
  {
    HeadOf(cfg, s, c);
    DecideMeans(cfg, s.status, s.chans[c].activeReads, s.reqs[s.chans[c].io[0]].req);
  }

  /** The state after dispatch: a read has its place in the io_uring, should it need one. */
  lemma AfterDispatch(cfg: Config, s: Sys, ls: seq<Label>, u: Sys, c: nat, accepted: bool)
    requires Polls(cfg, s, ls, u, c) && HeadIs(cfg, u, c, Servable)
    ensures var i, v := u.chans[c].io[0], ServeStep(cfg, u, c, accepted);
            && i < |u.reqs| == |v.reqs| && u.reqs[i].chan == c && c < |v.chans|
            && Polls(cfg, s, ls + [Serve(c, accepted)], v, c)
            && v.reqs[i].req == u.reqs[i].req && v.reqs[i].chan == c
            && (u.reqs[i].req.kind == Read ==> v.reqs[i].phase.Buffering? && RingEntries(v, c) < URING_QUEUE_SIZE)
  {
    HeadOf(cfg, u, c);
    PollServes(cfg, s, ls, u, c, accepted);
    var i, v := u.chans[c].io[0], ServeStep(cfg, u, c, accepted);
    if u.reqs[i].req.kind == Read {
      EntryForRead(cfg, v, i, c);
    }
  }

  /** The state after a read has been served and its buffer was there at once. */
  lemma BufferServes(cfg: Config, s: Sys, t: Sys, c: nat, accepts: nat -> bool, buffers: nat -> Buffer)
    requires Shape(cfg, s) && HeadIs(cfg, s, c, Servable)
    requires var i := s.chans[c].io[0];
             && s.reqs[i].req.kind == Read && buffers(i).Now? && s.reqs[i].chan == c
             && t == ServeStep(cfg, s, c, accepts(i)) && RingEntries(t, c) < URING_QUEUE_SIZE
    ensures var i := s.chans[c].io[0];
            && Stripe(cfg, t.reqs[i].req.start) < |t.status|
            && ServesHead(cfg, s, GetBufStep(cfg, t, i, buffers(i).ok, buffers(i).ret == 0), c, accepts, buffers)
  {
    HeadOf(cfg, s, c);
    DecideMeans(cfg, s.status, s.chans[c].activeReads, s.reqs[s.chans[c].io[0]].req);
  }

  /** The state after a read whose buffer is there at once. */
  lemma AfterBuffer(cfg: Config, s: Sys, ls: seq<Label>, u: Sys, c: nat, accepts: nat -> bool, buffers: nat -> Buffer)
    requires Polls(cfg, s, ls, u, c) && HeadIs(cfg, u, c, Servable)
    requires var i := u.chans[c].io[0]; u.reqs[i].req.kind == Read && buffers(i).Now?
    ensures var i := u.chans[c].io[0];
            var v := ServeStep(cfg, u, c, accepts(i));
            && i < |u.reqs| == |v.reqs| && v.reqs[i].req == u.reqs[i].req && v.reqs[i].chan == c < |v.chans|
            && v.reqs[i].phase.Buffering? && RingEntries(v, c) < URING_QUEUE_SIZE
            && Stripe(cfg, v.reqs[i].req.start) < MAX_STRIPES == |v.status|
            && var ok, got := buffers(i).ok, buffers(i).ret == 0;
               var t := GetBufStep(cfg, v, i, ok, got);
               && Polls(cfg, s, ls + [Serve(c, accepts(i)), GetBuf(i, ok, got)], t, c)
               && ServesHead(cfg, u, t, c, accepts, buffers)
  {
    var i := u.chans[c].io[0];
    var v := ServeStep(cfg, u, c, accepts(i));
    var ms := ls + [Serve(c, accepts(i))];
    AfterDispatch(cfg, s, ls, u, c, accepts(i));
    BufferServes(cfg, u, v, c, accepts, buffers);
    PollBuffers(cfg, s, ms, v, c, i, buffers(i).ok, buffers(i).ret == 0);
    assert ms + [GetBuf(i, buffers(i).ok, buffers(i).ret == 0)]
        == ls + [Serve(c, accepts(i)), GetBuf(i, buffers(i).ok, buffers(i).ret == 0)];
  }

  /** From `s` to `t` the first `k` requests of channel `c` are served; each gets its outcome, no other changes. */
  ghost predicate Served(cfg: Config, s: Sys, t: Sys, c: nat, k: nat, accepts: nat -> bool, buffers: nat -> Buffer) {
    && t.status == s.status && t.hist.log == s.hist.log && |t.reqs| == |s.reqs|
    && c < |s.chans| == |t.chans| && k <= |s.chans[c].io| && t.chans[c].io == s.chans[c].io[k..]
    && (forall j | 0 <= j < k :: var i := s.chans[c].io[j]; Gets(cfg, s, t, i, accepts(i), buffers(i)))
    && (forall i: nat | i < |s.reqs| && i !in s.chans[c].io[..k] :: t.reqs[i] == s.reqs[i])
  }

  /** The requests on a list are distinct and wait. */
  ghost predicate WaitApart(io: seq<nat>, reqs: seq<Io>) {
    && (forall i, j | 0 <= i < j < |io| :: io[i] != io[j])
    && forall i | 0 <= i < |io| :: io[i] < |reqs| && reqs[io[i]].phase.Waiting?
  }

  lemma OrderWaits(ch: Chan, c: nat, reqs: seq<Io>)
    requires ChanOrder(ch, c, reqs)
    ensures WaitApart(ch.io, reqs)
  {
    forall i, j | 0 <= i < j < |ch.io|
      ensures ch.io[i] != ch.io[j]
    {
      assert ch.io[i] == ch.arrived[|ch.served| + i] && ch.io[j] == ch.arrived[|ch.served| + j];
    }
  }

  lemma ListWaits(cfg: Config, s: Sys, c: nat)
    requires Reachable(cfg, s) && c < |s.chans|
    ensures WaitApart(s.chans[c].io, s.reqs)
  {
    ReachableSound(cfg, s);
    OrderWaits(s.chans[c], c, s.reqs);
  }

  lemma ServedMore(cfg: Config, s: Sys, u: Sys, t: Sys, c: nat, k: nat, accepts: nat -> bool, buffers: nat -> Buffer)
    requires Served(cfg, s, u, c, k, accepts, buffers) && ServedOne(cfg, u, t, c, accepts, buffers)
    requires WaitApart(s.chans[c].io, s.reqs)
    ensures Served(cfg, s, t, c, k + 1, accepts, buffers)
  {
    var io := s.chans[c].io;
    assert u.chans[c].io[0] == io[k];
    assert io[..k + 1] == io[..k] + [io[k]];
    assert io[k] !in io[..k];
    forall j | 0 <= j < k + 1
      ensures var i := io[j]; Gets(cfg, s, t, i, accepts(i), buffers(i))
    {
      if j < k {
        assert Gets(cfg, s, u, io[j], accepts(io[j]), buffers(io[j]));
        assert io[j] != io[k];
      }
    }
  }

  /** Around the service of requests, a poll changes no request. */
  lemma ServedBetween(cfg: Config, s: Sys, u: Sys, v: Sys, t: Sys, c: nat, k: nat, accepts: nat -> bool,
                      buffers: nat -> Buffer)
    requires Served(cfg, u, v, c, k, accepts, buffers)
    requires u == s.(chans := u.chans) && |s.chans| == |u.chans| && u.chans[c].io == s.chans[c].io
    requires t == v.(chans := t.chans) && |t.chans| == |v.chans| && t.chans[c].io == v.chans[c].io
    ensures Served(cfg, s, t, c, k, accepts, buffers)
  {
    forall j | 0 <= j < k
      ensures var i := s.chans[c].io[j]; Gets(cfg, s, t, i, accepts(i), buffers(i))
    {
      var i := s.chans[c].io[j];
      assert Gets(cfg, u, v, i, accepts(i), buffers(i));
    }
  }

  /** A poll that found work: fetches start, requests are served and the io_uring is submitted. */
  lemma WorkEnds(cfg: Config, s: Sys, u: Sys, v: Sys, t: Sys, c: nat, used: seq<nat>, k: nat, accepts: nat -> bool,
                 buffers: nat -> Buffer)
    requires Starts(s, u, c, used) && AllStarted(u.chans[c]) && Served(cfg, u, v, c, k, accepts, buffers)
    requires v.chans[c].queue == u.chans[c].queue && v.chans[c].slots == u.chans[c].slots
    requires Shape(cfg, v) && AllServed(cfg, v, c) && Shape(cfg, t) && |t.chans| == |v.chans|
    requires t == v.(chans := v.chans[c := t.chans[c]])
    requires t.chans[c] == v.chans[c].(polling := t.chans[c].polling, prepared := t.chans[c].prepared)
    ensures Drained(cfg, t, c) && Started(s.chans[c], t.chans[c], used) && Served(cfg, s, t, c, k, accepts, buffers)
  {
    ServedBetween(cfg, s, u, v, t, c, k, accepts, buffers);
    StillDrained(cfg, v, t, c);
  }

  /**
   What a poll makes of all requests: the first `k` on the list get their outcome, image reads end as their
   completions say, and no other request changes.
   */
  ghost predicate Results(cfg: Config, s: Sys, t: Sys, c: nat, k: nat, cqes: seq<Cqe>, accepts: nat -> bool,
                          buffers: nat -> Buffer) {
    && EndsEach(cfg, s, t, cqes) && c < |s.chans| && k <= |s.chans[c].io|
    && (forall j | 0 <= j < k :: var i := s.chans[c].io[j]; Gets(cfg, s, t, i, accepts(i), buffers(i)))
    && forall i: nat | i < |s.reqs| && i !in s.chans[c].io[..k] && (forall j | 0 <= j < |cqes| :: !IsFor(cqes[j], i)) ::
         t.reqs[i] == s.reqs[i]
  }

  lemma PollResults(cfg: Config, s: Sys, u: Sys, t: Sys, c: nat, k: nat, cqes: seq<Cqe>, accepts: nat -> bool,
                    buffers: nat -> Buffer)
    requires Answered(cfg, s, u, cqes) && Served(cfg, u, t, c, k, accepts, buffers)
    requires c < |s.chans| && u.chans[c].io == s.chans[c].io && u.hist.log == s.hist.log
    requires WaitApart(s.chans[c].io, s.reqs)
    ensures Results(cfg, s, t, c, k, cqes, accepts, buffers)
  {
    var io := s.chans[c].io;
    forall j | 0 <= j < k
      ensures var i := io[j]; u.reqs[i] == s.reqs[i] && Gets(cfg, s, t, i, accepts(i), buffers(i))
    {
      assert forall m | 0 <= m < |cqes| :: !IsFor(cqes[m], io[j]);
      assert Gets(cfg, u, t, io[j], accepts(io[j]), buffers(io[j]));
    }
    forall j | 0 <= j < |cqes| && cqes[j].OfIo?
      ensures t.reqs[cqes[j].io.id] == u.reqs[cqes[j].io.id]
    {
      assert cqes[j].io.id !in io[..k];
    }
  }

  /**
   The steps `ls` of channel `c` lead from `s` to `t` and are those of a poll: the completions come first, then
   the oldest queued stripes and the oldest requests; all requests end up as they should.
   */
  ghost predicate Polled(cfg: Config, s: Sys, ls: seq<Label>, t: Sys, c: nat, cqes: seq<Cqe>, accepts: nat -> bool,
                         buffers: nat -> Buffer) {
    && Polls(cfg, s, ls, t, c) && Kept(s, t, c)
    && (forall j | 0 <= j < |ls| :: !ls[j].Bug?)
    && |cqes| <= |ls| && (forall j | 0 <= j < |cqes| :: ls[j] == LabelOf(c, cqes[j]))
    && |t.chans[c].queue| <= |s.chans[c].queue|
    && t.chans[c].queue == s.chans[c].queue[|s.chans[c].queue| - |t.chans[c].queue|..]
    && Results(cfg, s, t, c, |t.chans[c].served| - |s.chans[c].served|, cqes, accepts, buffers)
  }

  /**
   How a poll ends. If its lists were empty it has only handled completions, and reports the last one. Else it
   leaves nothing that it could start or serve, and has submitted the prepared reads unless that failed. The
   counter `has_reads` has gone from `was` to `now`.
   */
  ghost predicate Finished(cfg: Config, s: Sys, ls: seq<Label>, t: Sys, c: nat, cqes: seq<Cqe>, submitted: int,
                           was: nat, now: nat, busy: bool) {
    && c < |s.chans| == |t.chans| && !t.chans[c].polling
    && if s.chans[c].io == [] && s.chans[c].queue == [] then
         |ls| == |cqes| && Rest(t, c) == Rest(s, c) && now == was && (busy <==> EndsWell(cqes))
       else
         && busy && Drained(cfg, t, c)
         && if submitted < 0 then now >= was else now == 0 && t.chans[c].prepared == {}
  }

  /** A poll in two parts: the completions `ms`, and the rest of `ls`. */
  lemma PollConcludes(cfg: Config, s: Sys, ms: seq<Label>, u: Sys, ls: seq<Label>, t: Sys, c: nat, used: seq<nat>,
                      k: nat, cqes: seq<Cqe>, accepts: nat -> bool, buffers: nat -> Buffer)
    requires CompletedFirst(cfg, s, ms, u, c, cqes, |cqes|) && Polls(cfg, s, ls, t, c) && ms <= ls
    requires Served(cfg, u, t, c, k, accepts, buffers) && Started(u.chans[c], t.chans[c], used)
    ensures Polled(cfg, s, ls, t, c, cqes, accepts, buffers)
  {
    ListWaits(cfg, s, c);
    PollKeeps(cfg, s, ms, u, c);
    assert cqes[..|cqes|] == cqes;
    PollResults(cfg, s, u, t, c, k, cqes, accepts, buffers);
    PollKeeps(cfg, s, ls, t, c);
    assert |t.chans[c].served + t.chans[c].io| == |s.chans[c].served + s.chans[c].io|;
    NoBug(cfg, s, ls, t);
  }

  /** A poll that finds its lists empty does nothing else. */
  lemma PollReturns(cfg: Config, s: Sys, ls: seq<Label>, t: Sys, c: nat, cqes: seq<Cqe>, accepts: nat -> bool,
                    buffers: nat -> Buffer, submitted: int, n: nat)
    requires CompletedFirst(cfg, s, ls, t, c, cqes, |cqes|) && !Began(s.chans[c])
    ensures Polled(cfg, s, ls, t, c, cqes, accepts, buffers)
    ensures Finished(cfg, s, ls, t, c, cqes, submitted, n, n, EndsWell(cqes))
  {
    PollConcludes(cfg, s, ls, t, ls, t, c, [], 0, cqes, accepts, buffers);
  }
}
