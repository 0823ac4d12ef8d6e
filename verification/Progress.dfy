/** Waiting requests are always served in the end: some step is enabled, and no work goes on for ever. */
module Progress {
  import opened Types
  import opened Protocol
  import opened Frames
  import opened Order
  import opened Ownership
  import opened Resources

  /** Steps that do work: all but new channels and requests, cache traffic, crashes and refused submissions. */
  predicate Works(l: Label) {
    OfFetch(l) || l.Reject? || l.Bug? || l.Serve? || (l.Ring? && l.ok) || OfRead(l) || OfWrite(l) || OfFlush(l)
  }

  // ---------------------------------------------------------------- the measure

  function PhaseWeight(req: Request, phase: Phase): nat {
    match phase
    case Waiting => |Range(req)| + 10
    case Buffering(_) => |Range(req)| + 4
    case BaseRead(_, pending, _) => |pending| + 2
    case ImageRead(_, _) => 1
    case Writing(pending, _) => |pending| + 1
    case DataFlush(pending) => |pending| + 6
    case MetaWrite(_, _, applied) => if applied then 3 else 4
    case MetaFlush(_, _, settled) => if settled then 1 else 2
    case _ => 0
  }

  function RequestsWeight(reqs: seq<Io>): nat {
    if reqs == [] then 0
    else RequestsWeight(reqs[..|reqs| - 1]) + PhaseWeight(reqs[|reqs| - 1].req, reqs[|reqs| - 1].phase)
  }

  function SlotWeight(cfg: Config, slot: Slot): nat
    requires 0 < cfg.stripeBlocks
  {
    match slot
    case Free => 0
    case Reading(x) => |StripeBlocks(cfg, x)| + 2
    case Copying(_, pending) => |pending| + 1
  }

  function SlotsWeight(cfg: Config, slots: seq<Slot>): nat
    requires 0 < cfg.stripeBlocks
  {
    if slots == [] then 0 else SlotsWeight(cfg, slots[..|slots| - 1]) + SlotWeight(cfg, slots[|slots| - 1])
  }

  function QueueWeight(cfg: Config, queue: seq<nat>): nat
    requires 0 < cfg.stripeBlocks
  {
    if queue == [] then 0 else |StripeBlocks(cfg, queue[0])| + 4 + QueueWeight(cfg, queue[1..])
  }

  /** A poll to be ended, and image reads to be submitted. */
  function RingWeight(ch: Chan): nat {
    |ch.prepared| + if ch.polling then 1 else 0
  }

  function ChanWeight(cfg: Config, ch: Chan): nat
    requires 0 < cfg.stripeBlocks
  {
    QueueWeight(cfg, ch.queue) + SlotsWeight(cfg, ch.slots) + RingWeight(ch)
  }

  function ChansWeight(cfg: Config, chans: seq<Chan>): nat
    requires 0 < cfg.stripeBlocks
  {
    if chans == [] then 0 else ChansWeight(cfg, chans[..|chans| - 1]) + ChanWeight(cfg, chans[|chans| - 1])
  }

  /** The work still to be done. */
  function Measure(cfg: Config, s: Sys): nat
    requires 0 < cfg.stripeBlocks
  {
    ChansWeight(cfg, s.chans) + RequestsWeight(s.reqs)
  }

  lemma {:induction false} RequestsUpdate(reqs: seq<Io>, i: nat, io: Io)
    requires i < |reqs|
    ensures RequestsWeight(reqs[i := io]) + PhaseWeight(reqs[i].req, reqs[i].phase)
            == RequestsWeight(reqs) + PhaseWeight(io.req, io.phase)
  {
    var n := |reqs| - 1;
    if i == n {
      assert reqs[i := io][..n] == reqs[..n];
    } else {
      assert reqs[i := io][..n] == reqs[..n][i := io];
      RequestsUpdate(reqs[..n], i, io);
    }
  }

  lemma {:induction false} SlotsUpdate(cfg: Config, slots: seq<Slot>, k: nat, slot: Slot)
    requires 0 < cfg.stripeBlocks && k < |slots|
    ensures SlotsWeight(cfg, slots[k := slot]) + SlotWeight(cfg, slots[k])
            == SlotsWeight(cfg, slots) + SlotWeight(cfg, slot)
  {
    var n := |slots| - 1;
    if k == n {
      assert slots[k := slot][..n] == slots[..n];
    } else {
      assert slots[k := slot][..n] == slots[..n][k := slot];
      SlotsUpdate(cfg, slots[..n], k, slot);
    }
  }

  lemma {:induction false} ChansUpdate(cfg: Config, chans: seq<Chan>, c: nat, ch: Chan)
    requires 0 < cfg.stripeBlocks && c < |chans|
    ensures ChansWeight(cfg, chans[c := ch]) + ChanWeight(cfg, chans[c])
            == ChansWeight(cfg, chans) + ChanWeight(cfg, ch)
  {
    var n := |chans| - 1;
    if c == n {
      assert chans[c := ch][..n] == chans[..n];
    } else {
      assert chans[c := ch][..n] == chans[..n][c := ch];
      ChansUpdate(cfg, chans[..n], c, ch);
    }
  }

  /** Request `i` advances, at the price of `d` more to do for a channel. */
  lemma Lighter(cfg: Config, s: Sys, t: Sys, i: nat, d: nat)
    requires 0 < cfg.stripeBlocks && PhaseOnly(s.reqs, t.reqs, i)
    requires ChansWeight(cfg, t.chans) <= ChansWeight(cfg, s.chans) + d
    requires PhaseWeight(s.reqs[i].req, t.reqs[i].phase) + d < PhaseWeight(s.reqs[i].req, s.reqs[i].phase)
    ensures Measure(cfg, t) < Measure(cfg, s)
  {
    RequestsUpdate(s.reqs, i, t.reqs[i]);
  }

  // ---------------------------------------------------------------- every working step makes progress

  lemma ProperSubsetSize(a: set<nat>, b: set<nat>)
    requires a < b
    ensures |a| < |b|
  {
    var x :| x in b && x !in a;
    SubsetSize(a, b - {x});
  }

  /** The moves of a slot: it takes a stripe off the queue, or works on the stripe it has. */
  predicate SlotNears(cfg: Config, s: Slot, queue: seq<nat>, t: Slot, queue': seq<nat>)
    requires 0 < cfg.stripeBlocks
  {
    || (s.Free? && queue != [] && t == Reading(queue[0]) && queue' == queue[1..])
    || (!s.Free? && t.Free? && queue' == queue)
    || (s.Reading? && t == Copying(s.stripe, StripeBlocks(cfg, s.stripe)) && queue' == queue)
    || (s.Copying? && t.Copying? && t.pending < s.pending && queue' == queue)
  }

  lemma FetchNears(cfg: Config, s: Sys, l: Label)
    requires Shape(cfg, s) && Enabled(cfg, s, l) && OfFetch(l) && Advances(s, Step(cfg, s, l), l.c, l.k)
    ensures var a, b := s.chans[l.c], Step(cfg, s, l).chans[l.c];
            && SlotNears(cfg, a.slots[l.k], a.queue, b.slots[l.k], b.queue)
            && RingWeight(b) <= RingWeight(a) + if a.slots[l.k].Free? then 1 else 0
  {
  }

  lemma SlotNearsWeighsLess(cfg: Config, s: Slot, queue: seq<nat>, t: Slot, queue': seq<nat>)
    requires 0 < cfg.stripeBlocks && SlotNears(cfg, s, queue, t, queue')
    ensures QueueWeight(cfg, queue') + SlotWeight(cfg, t) + (if s.Free? then 1 else 0)
            < QueueWeight(cfg, queue) + SlotWeight(cfg, s)
  {
    if s.Copying? && t.Copying? {
      ProperSubsetSize(t.pending, s.pending);
    }
  }

  lemma FetchLighter(cfg: Config, s: Sys, l: Label)
    requires Good(cfg, s) && Enabled(cfg, s, l) && OfFetch(l)
    ensures Measure(cfg, Step(cfg, s, l)) < Measure(cfg, s)
  {
    AdvancesSlot(cfg, s, l);
    FetchNears(cfg, s, l);
    var a, b := s.chans[l.c], Step(cfg, s, l).chans[l.c];
    SlotNearsWeighsLess(cfg, a.slots[l.k], a.queue, b.slots[l.k], b.queue);
    SlotsUpdate(cfg, a.slots, l.k, b.slots[l.k]);
    ChansUpdate(cfg, s.chans, l.c, b);
  }

  lemma PollLighter(cfg: Config, s: Sys, l: Label)
    requires Good(cfg, s) && Enabled(cfg, s, l) && (l.Reject? || l.Bug? || l.Serve?)
    ensures Measure(cfg, Step(cfg, s, l)) < Measure(cfg, s)
  {
    PopsHead(cfg, s, l);
    PopNears(cfg, s, l);
    ChansUpdate(cfg, s.chans, l.c, Step(cfg, s, l).chans[l.c]);
    Lighter(cfg, s, Step(cfg, s, l), s.chans[l.c].io[0], 1);
  }

  lemma PopNears(cfg: Config, s: Sys, l: Label)
    requires Good(cfg, s) && Enabled(cfg, s, l) && (l.Reject? || l.Bug? || l.Serve?) && Pops(s, Step(cfg, s, l), l.c)
    ensures var i := s.chans[l.c].io[0];
            PhaseWeight(s.reqs[i].req, Step(cfg, s, l).reqs[i].phase) + 1 < PhaseWeight(s.reqs[i].req, s.reqs[i].phase)
  {
    assert ChanOrder(s.chans[l.c], l.c, s.reqs);
  }

  predicate Over(phase: Phase) {
    Completed(phase) || phase.Lost?
  }

  /** The moves of a request in flight. */
  predicate Nears(req: Request, p: Phase, q: Phase) {
    || (InFlight(p) && Over(q))
    || (p.Buffering? && (q.ImageRead? || (q.BaseRead? && q.pending == Range(req))))
    || (p.BaseRead? && q.BaseRead? && q.pending < p.pending)
    || (p.Writing? && q.Writing? && q.pending < p.pending)
    || (p.DataFlush? && (q.MetaWrite? || (q.DataFlush? && q.pending < p.pending)))
    || (p.MetaWrite? && (q.MetaFlush? || (q.MetaWrite? && !p.applied && q.applied)))
    || (p.MetaFlush? && q.MetaFlush? && !p.settled && q.settled)
  }

  lemma NearsWeighsLess(req: Request, p: Phase, q: Phase)
    requires Nears(req, p, q)
    ensures PhaseWeight(req, q) + (if p.Buffering? then 1 else 0) < PhaseWeight(req, p)
  {
    if (p.BaseRead? && q.BaseRead?) || (p.Writing? && q.Writing?) || (p.DataFlush? && q.DataFlush?) {
      ProperSubsetSize(q.pending, p.pending);
    }
  }

  lemma ReadNears(cfg: Config, s: Sys, l: Label)
    requires Shape(cfg, s) && Enabled(cfg, s, l) && OfRead(l)
    ensures |RequestStep(cfg, s, l).reqs| == |s.reqs|
    ensures Nears(s.reqs[l.i].req, s.reqs[l.i].phase, RequestStep(cfg, s, l).reqs[l.i].phase)
  {
  }

  lemma WriteNears(cfg: Config, s: Sys, l: Label)
    requires Shape(cfg, s) && Enabled(cfg, s, l) && OfWrite(l)
    ensures |RequestStep(cfg, s, l).reqs| == |s.reqs| && !s.reqs[l.i].phase.Buffering?
    ensures Nears(s.reqs[l.i].req, s.reqs[l.i].phase, RequestStep(cfg, s, l).reqs[l.i].phase)
  {
  }

  lemma FlushNears(cfg: Config, s: Sys, l: Label)
    requires Shape(cfg, s) && Enabled(cfg, s, l) && OfFlush(l)
    ensures |FlushStep(cfg, s, l).reqs| == |s.reqs|
    ensures Nears(s.reqs[l.i].req, s.reqs[l.i].phase, FlushStep(cfg, s, l).reqs[l.i].phase)
  {
  }

  /** A read may add one entry to the io_uring of its channel, when it gets its buffer. */
  lemma ReadPrepares(cfg: Config, s: Sys, l: Label)
    requires Shape(cfg, s) && Enabled(cfg, s, l) && OfRead(l)
    ensures var c, t := s.reqs[l.i].chan, RequestStep(cfg, s, l);
            && c < |s.chans| == |t.chans| && t.chans == s.chans[c := t.chans[c]]
            && Prepares(s.chans[c], t.chans[c], l.i, s.reqs[l.i].phase.Buffering?)
  {
  }

  predicate Prepares(a: Chan, b: Chan, i: nat, may: bool) {
    && b == a.(activeReads := b.activeReads, prepared := b.prepared)
    && (b.prepared == a.prepared || (may && b.prepared == a.prepared + {i}))
  }

  lemma PreparesOneMore(cfg: Config, a: Chan, b: Chan, i: nat, may: bool)
    requires 0 < cfg.stripeBlocks && Prepares(a, b, i, may)
    ensures ChanWeight(cfg, b) <= ChanWeight(cfg, a) + if may then 1 else 0
  {
  }

  lemma ReadLighter(cfg: Config, s: Sys, l: Label)
    requires Good(cfg, s) && Enabled(cfg, s, l) && OfRead(l)
    ensures Measure(cfg, RequestStep(cfg, s, l)) < Measure(cfg, s)
  {
    TouchesRead(cfg, s, l);
    ReadNears(cfg, s, l);
    NearsWeighsLess(s.reqs[l.i].req, s.reqs[l.i].phase, RequestStep(cfg, s, l).reqs[l.i].phase);
    ReadPrepares(cfg, s, l);
    var c, t := s.reqs[l.i].chan, RequestStep(cfg, s, l);
    PreparesOneMore(cfg, s.chans[c], t.chans[c], l.i, s.reqs[l.i].phase.Buffering?);
    ChansUpdate(cfg, s.chans, c, t.chans[c]);
    Lighter(cfg, s, RequestStep(cfg, s, l), l.i, if s.reqs[l.i].phase.Buffering? then 1 else 0);
  }

  lemma WriteLighter(cfg: Config, s: Sys, l: Label)
    requires Good(cfg, s) && Enabled(cfg, s, l) && OfWrite(l)
    ensures Measure(cfg, RequestStep(cfg, s, l)) < Measure(cfg, s)
  {
    TouchesWrite(cfg, s, l);
    WriteNears(cfg, s, l);
    NearsWeighsLess(s.reqs[l.i].req, s.reqs[l.i].phase, RequestStep(cfg, s, l).reqs[l.i].phase);
    Lighter(cfg, s, RequestStep(cfg, s, l), l.i, 0);
  }

  lemma FlushLighter(cfg: Config, s: Sys, l: Label)
    requires Good(cfg, s) && Enabled(cfg, s, l) && OfFlush(l)
    ensures Measure(cfg, FlushStep(cfg, s, l)) < Measure(cfg, s)
  {
    TouchesFlush(cfg, s, l);
    FlushNears(cfg, s, l);
    NearsWeighsLess(s.reqs[l.i].req, s.reqs[l.i].phase, FlushStep(cfg, s, l).reqs[l.i].phase);
    Lighter(cfg, s, FlushStep(cfg, s, l), l.i, 0);
  }

  lemma RingLighter(cfg: Config, s: Sys, l: Label)
    requires Shape(cfg, s) && Enabled(cfg, s, l) && l.Ring?
    ensures if l.ok then Measure(cfg, Step(cfg, s, l)) < Measure(cfg, s)
            else Measure(cfg, Step(cfg, s, l)) <= Measure(cfg, s)
  {
    ChansUpdate(cfg, s.chans, l.c, Step(cfg, s, l).chans[l.c]);
  }

  /** Every working step strictly reduces the work to be done. */
  lemma WorkShrinks(cfg: Config, s: Sys, l: Label)
    requires Good(cfg, s) && Enabled(cfg, s, l) && Works(l)
    ensures Measure(cfg, Step(cfg, s, l)) < Measure(cfg, s)
  {
    if OfFetch(l) {
      FetchLighter(cfg, s, l);
    } else if OfRead(l) {
      ReadLighter(cfg, s, l);
    } else if OfWrite(l) {
      WriteLighter(cfg, s, l);
    } else if OfFlush(l) {
      FlushLighter(cfg, s, l);
    } else if l.Ring? {
      RingLighter(cfg, s, l);
    } else {
      PollLighter(cfg, s, l);
    }
  }

  lemma {:induction false} SlotsFree(cfg: Config, slots: seq<Slot>)
    requires 0 < cfg.stripeBlocks && forall k | 0 <= k < |slots| :: slots[k].Free?
    ensures SlotsWeight(cfg, slots) == 0
  {
    if slots == [] {
    } else {
      SlotsFree(cfg, slots[..|slots| - 1]);
    }
  }

  /** The other steps, new requests and crashes apart, bring no new work. */
  lemma WorkNeverGrows(cfg: Config, s: Sys, l: Label)
    requires Good(cfg, s) && Enabled(cfg, s, l) && !l.Submit? && !l.Crash?
    ensures Measure(cfg, Step(cfg, s, l)) <= Measure(cfg, s)
  {
    if Works(l) {
      WorkShrinks(cfg, s, l);
    } else if l.Ring? {
      RingLighter(cfg, s, l);
    } else if l.Open? {
      SlotsFree(cfg, EmptyChan().slots);
      assert (s.chans + [EmptyChan()])[..|s.chans|] == s.chans;
    }
  }

  // ---------------------------------------------------------------- waiting work can always be done

  /** A stripe in flight can be worked on, on whichever channel holds it. */
  lemma FetchEnabled(cfg: Config, s: Sys, x: nat) returns (l: Label)
    requires Good(cfg, s) && HeldAll(s.status, s.chans) && x < MAX_STRIPES && s.status[x] == Inflight
    ensures OfFetch(l) && Enabled(cfg, s, l)
  {
    assert Share(s.status, x) <= AllOwned(s.chans, x);
    var c := AllFind(s.chans, x);
    var ch := s.chans[c];
    var k: nat;
    if Held(ch.slots, x) > 0 {
      k := HeldFind(ch.slots, x);
    } else {
      k := 0;
      assert x in ch.queue;
    }
    match ch.slots[k]
    case Free => l := StartFetch(c, k);
    case Reading(y) => l := FetchRead(c, k, true, Fits(cfg, y));
    case Copying(_, pending) =>
      if pending == {} {
        l := FetchDone(c, k);
      } else {
        var b :| b in pending;
        l := FetchApply(c, k, b, 0);
      }
  }

  /** Image read `i` is prepared, and no poll will submit it before a new request arrives on its channel. */
  ghost predicate Stranded(s: Sys, i: nat) {
    && i < |s.reqs| && s.reqs[i].phase.ImageRead? && s.reqs[i].chan < |s.chans|
    && i in s.chans[s.reqs[i].chan].prepared && !Began(s.chans[s.reqs[i].chan])
  }

  /** A request in flight can go on without failing, unless it is stranded. */
  lemma InFlightEnabled(cfg: Config, s: Sys, i: nat) returns (l: Label)
    requires Shape(cfg, s) && i < |s.reqs| && InFlight(s.reqs[i].phase) && !Stranded(s, i)
    ensures Works(l) && Enabled(cfg, s, l)
  {
    var c := s.reqs[i].chan;
    match s.reqs[i].phase
    case Buffering(_) => l := GetBuf(i, true, true);
    case ImageRead(_, _) => l := if i in s.chans[c].prepared then Ring(c, true) else ImageReadDone(i, true, 0);
    case BaseRead(_, pending, _) =>
      if b :| b in pending { l := BaseReadBlock(i, b); } else { l := BaseReadDone(i, true); }
    case Writing(pending, _) => if b :| b in pending { l := WriteApply(i, b); } else { l := WriteDone(i, true); }
    case DataFlush(pending) =>
      if b :| b in pending { l := FlushBlock(i, b); } else { l := DataFlushDone(i, true, true); }
    case MetaWrite(_, _, applied) => l := if applied then MetaWriteDone(i, true, true) else MetaApply(i);
    case MetaFlush(_, _, settled) => l := if settled then MetaFlushDone(i, true) else MetaSettle(i);
  }

  /** A channel at its read limit with a request waiting has a read that can go on. */
  lemma ReadEnabled(cfg: Config, s: Sys, c: nat) returns (l: Label)
    requires Good(cfg, s) && ReadsCounted(s.chans, s.reqs) && c < |s.chans| && s.chans[c].io != []
    requires s.chans[c].activeReads >= MAX_CONCURRENT_READS
    ensures Works(l) && Enabled(cfg, s, l)
  {
    var i :| i in ReadSet(s.reqs, c);
    l := InFlightEnabled(cfg, s, i);
  }

  /** While a channel has waiting requests, something can be done. */
  lemma WorkEnabled(cfg: Config, s: Sys, c: nat) returns (l: Label)
    requires Good(cfg, s) && HeldAll(s.status, s.chans) && ReadsCounted(s.chans, s.reqs)
    requires c < |s.chans| && s.chans[c].io != []
    ensures Works(l) && Enabled(cfg, s, l)
  {
    var req := s.reqs[s.chans[c].io[0]].req;
    match Decide(cfg, s.status, s.chans[c].activeReads, req)
    case AtReadLimit => l := ReadEnabled(cfg, s, c);
    case Refused => l := Reject(c);
    case Blocked => l := FetchEnabled(cfg, s, Stripe(cfg, req.start));
    case Unexpected => l := Bug(c);
    case Servable => l := Serve(c, true);
  }

  /** The branch for a request whose stripe nobody asked for is never taken. */
  lemma NeverUnexpected(cfg: Config, s: Sys, c: nat)
    requires Good(cfg, s) && Fetches(cfg, s)
    ensures !Enabled(cfg, s, Bug(c))
  {
    if c < |s.chans| && s.chans[c].io != [] {
      assert ChanOrder(s.chans[c], c, s.reqs);
    }
  }
}
