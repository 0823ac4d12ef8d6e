/** Bounds that hold only because of whole runs: reads in flight, ring entries, completions, started fetches. */
module Resources {
  import opened Types
  import opened Protocol
  import opened Frames
  import opened Order
  import opened Ownership

  // ---------------------------------------------------------------- reads in flight

  /** The reads of channel `c` that are dispatched and not completed. */
  function ReadSet(reqs: seq<Io>, c: nat): set<nat> {
    set i: nat | i < |reqs| && reqs[i].chan == c && ReadInFlight(reqs[i].phase)
  }

  function ImageSet(reqs: seq<Io>, c: nat): set<nat> {
    set i: nat | i < |reqs| && reqs[i].chan == c && reqs[i].phase.ImageRead?
  }

  function ReadingSlots(ch: Chan): set<nat> {
    set k: nat | k < |ch.slots| && ch.slots[k].Reading?
  }

  /** `active_reads` counts the reads in flight, and stays within the limit. */
  ghost predicate ReadsCounted(chans: seq<Chan>, reqs: seq<Io>) {
    forall c: nat | c < |chans| :: chans[c].activeReads == |ReadSet(reqs, c)| <= MAX_CONCURRENT_READS
  }

  /** A read or write that starts in the image, in a stripe with status `st`. */
  ghost predicate StartsIn(cfg: Config, status: seq<Status>, req: Request, st: Status) {
    && req.kind != Flush && req.start < |cfg.image|
    && 0 < cfg.stripeBlocks && req.start / cfg.stripeBlocks < |status| && status[req.start / cfg.stripeBlocks] == st
  }

  /** A read on a channel that has 24 reads in flight. */
  ghost predicate AtLimit(reqs: seq<Io>, c: nat, req: Request) {
    req.kind == Read && |ReadSet(reqs, c)| == 24
  }

  /** When the poller takes which decision. */
  ghost predicate Decided(cfg: Config, status: seq<Status>, activeReads: int, req: Request, v: Verdict) {
    && (v.AtReadLimit? <==> req.kind == Read && activeReads >= 24)
    && match v
       case AtReadLimit => true
       case Refused => StartsIn(cfg, status, req, Failed)
       case Blocked => StartsIn(cfg, status, req, Inflight)
       case Unexpected =>
         StartsIn(cfg, status, req, NotFetched) && (req.kind == Write || (req.kind == Read && cfg.copyOnRead))
       case Servable =>
         && !StartsIn(cfg, status, req, Failed) && !StartsIn(cfg, status, req, Inflight)
         && (StartsIn(cfg, status, req, NotFetched) ==> req.kind == Read && !cfg.copyOnRead)
  }

  lemma DecideMeans(cfg: Config, status: seq<Status>, activeReads: int, req: Request)
    requires 0 < cfg.stripeBlocks && Stripe(cfg, req.start) < |status|
    ensures Decided(cfg, status, activeReads, req, Decide(cfg, status, activeReads, req))
  {
  }

  lemma {:induction false} SubsetSize(a: set<nat>, b: set<nat>)
    requires a <= b
    ensures |a| <= |b|
    decreases |a|
  {
    if a == {} {
    } else {
      var x :| x in a;
      SubsetSize(a - {x}, b - {x});
    }
  }

  lemma {:induction false} Bounded(a: set<nat>, n: nat)
    requires forall x | x in a :: x < n
    ensures |a| <= n
  {
    if n == 0 {
      assert a == {};
    } else {
      Bounded(a - {n - 1}, n - 1);
      if n - 1 in a {
        assert |a| == |a - {n - 1}| + 1;
      } else {
        assert a - {n - 1} == a;
      }
    }
  }

  lemma Without(a: set<nat>, i: nat)
    ensures |a| == |a - {i}| + if i in a then 1 else 0
  {
    if i !in a {
      assert a - {i} == a;
    }
  }

  lemma ReadSetPhase(reqs: seq<Io>, reqs': seq<Io>, i: nat, c: nat)
    requires PhaseOnly(reqs, reqs', i)
    ensures |ReadSet(reqs', c)| == |ReadSet(reqs, c)|
              + (if reqs[i].chan == c && ReadInFlight(reqs'[i].phase) then 1 else 0)
              - (if reqs[i].chan == c && ReadInFlight(reqs[i].phase) then 1 else 0)
  {
    var a, b := ReadSet(reqs, c), ReadSet(reqs', c);
    forall j: nat | j != i
      ensures j in a <==> j in b
    {
      assert j < |reqs| ==> reqs'[j] == reqs[j];
    }
    assert a - {i} == b - {i};
    Without(a, i);
    Without(b, i);
  }

  /** The channel of request `i` accounts for its change of phase. */
  lemma ReadsPhase(chans: seq<Chan>, chans': seq<Chan>, reqs: seq<Io>, reqs': seq<Io>, i: nat)
    requires ReadsCounted(chans, reqs) && PhaseOnly(reqs, reqs', i) && |chans'| == |chans| && reqs[i].chan < |chans|
    requires forall c: nat | c < |chans| && c != reqs[i].chan :: chans'[c].activeReads == chans[c].activeReads
    requires chans'[reqs[i].chan].activeReads == chans[reqs[i].chan].activeReads
               + (if ReadInFlight(reqs'[i].phase) then 1 else 0) - (if ReadInFlight(reqs[i].phase) then 1 else 0)
    requires ReadInFlight(reqs'[i].phase) && !ReadInFlight(reqs[i].phase) ==>
              chans[reqs[i].chan].activeReads < MAX_CONCURRENT_READS
    ensures ReadsCounted(chans', reqs')
  {
    forall c: nat | c < |chans'|
      ensures chans'[c].activeReads == |ReadSet(reqs', c)| <= MAX_CONCURRENT_READS
    {
      ReadSetPhase(reqs, reqs', i, c);
    }
  }

  lemma ReadsSame(chans: seq<Chan>, chans': seq<Chan>, reqs: seq<Io>, reqs': seq<Io>)
    requires ReadsCounted(chans, reqs) && |chans'| == |chans| && |reqs| <= |reqs'|
    requires forall c: nat | c < |chans| :: chans'[c].activeReads == chans[c].activeReads
    requires forall i | 0 <= i < |reqs| :: reqs'[i] == reqs[i]
    requires forall i | |reqs| <= i < |reqs'| :: !ReadInFlight(reqs'[i].phase)
    ensures ReadsCounted(chans', reqs')
  {
    forall c: nat | c < |chans'|
      ensures chans'[c].activeReads == |ReadSet(reqs', c)| <= MAX_CONCURRENT_READS
    {
      assert ReadSet(reqs', c) == ReadSet(reqs, c);
    }
  }

  lemma ReadsOpen(cfg: Config, chans: seq<Chan>, reqs: seq<Io>)
    requires ReadsCounted(chans, reqs) && forall i | 0 <= i < |reqs| :: reqs[i].chan < |chans|
    ensures ReadsCounted(chans + [EmptyChan()], reqs)
  {
    assert ReadSet(reqs, |chans|) == {};
  }

  lemma ReadsPollStep(cfg: Config, s: Sys, l: Label)
    requires Good(cfg, s) && ReadsCounted(s.chans, s.reqs) && Enabled(cfg, s, l) && (l.Reject? || l.Bug? || l.Serve?)
    ensures ReadsCounted(Step(cfg, s, l).chans, Step(cfg, s, l).reqs)
  {
    PopsHead(cfg, s, l);
    assert ChanOrder(s.chans[l.c], l.c, s.reqs);
    ReadsPhase(s.chans, Step(cfg, s, l).chans, s.reqs, Step(cfg, s, l).reqs, s.chans[l.c].io[0]);
  }

  lemma ReadsReadStep(cfg: Config, s: Sys, l: Label)
    requires Good(cfg, s) && ReadsCounted(s.chans, s.reqs) && Enabled(cfg, s, l) && OfRead(l)
    ensures ReadsCounted(RequestStep(cfg, s, l).chans, RequestStep(cfg, s, l).reqs)
  {
    TouchesRead(cfg, s, l);
    ReadsPhase(s.chans, RequestStep(cfg, s, l).chans, s.reqs, RequestStep(cfg, s, l).reqs, l.i);
  }

  lemma ReadsFlushStep(cfg: Config, s: Sys, l: Label)
    requires Good(cfg, s) && ReadsCounted(s.chans, s.reqs) && Enabled(cfg, s, l) && OfFlush(l)
    ensures ReadsCounted(FlushStep(cfg, s, l).chans, FlushStep(cfg, s, l).reqs)
  {
    TouchesFlush(cfg, s, l);
    ReadsPhase(s.chans, FlushStep(cfg, s, l).chans, s.reqs, FlushStep(cfg, s, l).reqs, l.i);
  }

  lemma ReadsWriteStep(cfg: Config, s: Sys, l: Label)
    requires Good(cfg, s) && ReadsCounted(s.chans, s.reqs) && Enabled(cfg, s, l) && OfWrite(l)
    ensures ReadsCounted(RequestStep(cfg, s, l).chans, RequestStep(cfg, s, l).reqs)
  {
    TouchesWrite(cfg, s, l);
    ReadsPhase(s.chans, RequestStep(cfg, s, l).chans, s.reqs, RequestStep(cfg, s, l).reqs, l.i);
  }

  lemma ReadsSubmit(cfg: Config, s: Sys, c: nat, req: Request)
    requires Shape(cfg, s) && ReadsCounted(s.chans, s.reqs) && c < |s.chans| && RequestOk(cfg, req)
    ensures ReadsCounted(SubmitStep(cfg, s, c, req).chans, SubmitStep(cfg, s, c, req).reqs)
  {
    ReadsSame(s.chans, SubmitStep(cfg, s, c, req).chans, s.reqs, SubmitStep(cfg, s, c, req).reqs);
  }

  lemma ReadsStep(cfg: Config, s: Sys, l: Label)
    requires Good(cfg, s) && ReadsCounted(s.chans, s.reqs) && Enabled(cfg, s, l)
    ensures ReadsCounted(Step(cfg, s, l).chans, Step(cfg, s, l).reqs)
  {
    if l.Open? {
      ReadsOpen(cfg, s.chans, s.reqs);
    } else if OfFetch(l) {
      AdvancesSlot(cfg, s, l);
      ReadsSame(s.chans, Step(cfg, s, l).chans, s.reqs, s.reqs);
    } else if l.Submit? {
      ReadsSubmit(cfg, s, l.c, l.req);
    } else if l.Reject? || l.Bug? || l.Serve? {
      ReadsPollStep(cfg, s, l);
    } else if OfRead(l) {
      StepIsRequest(cfg, s, l);
      ReadsReadStep(cfg, s, l);
    } else if OfWrite(l) {
      StepIsRequest(cfg, s, l);
      ReadsWriteStep(cfg, s, l);
    } else if OfFlush(l) {
      StepIsFlush(cfg, s, l);
      ReadsFlushStep(cfg, s, l);
    } else if l.Ring? {
      RingsOnly(cfg, s, l);
      ReadsSame(s.chans, Step(cfg, s, l).chans, s.reqs, s.reqs);
    }
  }

  /** The ring of a channel never overflows, and has room whenever a read or a fetch needs an entry. */
  lemma RingHasRoom(cfg: Config, s: Sys, c: nat)
    requires Shape(cfg, s) && ReadsCounted(s.chans, s.reqs) && c < |s.chans|
    ensures RingEntries(s, c) <= URING_QUEUE_SIZE
    ensures (exists i :: 0 <= i < |s.reqs| && s.reqs[i].chan == c && s.reqs[i].phase.Buffering?) ==>
              RingEntries(s, c) < URING_QUEUE_SIZE
    ensures (exists k :: 0 <= k < |s.chans[c].slots| && s.chans[c].slots[k].Free?) ==>
              RingEntries(s, c) < URING_QUEUE_SIZE
  {
    var slots, images, live := ReadingSlots(s.chans[c]), ImageSet(s.reqs, c), ReadSet(s.reqs, c);
    Bounded(slots, MAX_STRIPE_FETCHES);
    SubsetSize(images, live);
    if i :| 0 <= i < |s.reqs| && s.reqs[i].chan == c && s.reqs[i].phase.Buffering? {
      SubsetSize(images, live - {i});
    }
    if k :| 0 <= k < |s.chans[c].slots| && s.chans[c].slots[k].Free? {
      Bounded(slots + {k}, MAX_STRIPE_FETCHES);
    }
  }

  // ---------------------------------------------------------------- completions

  predicate Completed(phase: Phase) {
    phase.ReadOk? || phase.WriteOk? || phase.FlushOk? || phase.FlushSkipped? || phase.Error?
  }

  ghost predicate Distinct(ids: seq<nat>) {
    forall a, b | 0 <= a < b < |ids| :: ids[a] != ids[b]
  }

  /** The list of completions holds every completed request once and nothing else. */
  ghost predicate CompletedOnce(reqs: seq<Io>, done: seq<nat>) {
    && Distinct(done)
    && (forall i | i in done :: i < |reqs|)
    && (forall i: nat | i < |reqs| :: i in done <==> Completed(reqs[i].phase))
  }

  /** A request completes: it is added to the list and was not there. */
  lemma CompletesPhase(reqs: seq<Io>, reqs': seq<Io>, i: nat, done: seq<nat>, done': seq<nat>)
    requires CompletedOnce(reqs, done) && PhaseOnly(reqs, reqs', i) && !Completed(reqs[i].phase)
    requires done' == if Completed(reqs'[i].phase) then done + [i] else done
    ensures CompletedOnce(reqs', done')
  {
    if Completed(reqs'[i].phase) {
      assert done'[|done|] == i;
    }
  }

  lemma CompletesAppend(reqs: seq<Io>, done: seq<nat>, io: Io)
    requires CompletedOnce(reqs, done)
    ensures CompletedOnce(reqs + [io], if Completed(io.phase) then done + [|reqs|] else done)
  {
    var done' := done + [|reqs|];
    assert done'[|done|] == |reqs|;
    assert |reqs| !in done;
    if Completed(io.phase) {
      assert CompletedOnce(reqs + [io], done');
    }
  }

  lemma CompletesSubmit(cfg: Config, s: Sys, c: nat, req: Request)
    requires Shape(cfg, s) && CompletedOnce(s.reqs, s.hist.done) && c < |s.chans| && RequestOk(cfg, req)
    ensures CompletedOnce(SubmitStep(cfg, s, c, req).reqs, SubmitStep(cfg, s, c, req).hist.done)
  {
    var t := SubmitStep(cfg, s, c, req);
    CompletesAppend(s.reqs, s.hist.done, t.reqs[|s.reqs|]);
    assert t.reqs == s.reqs + [t.reqs[|s.reqs|]];
  }

  lemma CompletesPollStep(cfg: Config, s: Sys, l: Label)
    requires Good(cfg, s) && CompletedOnce(s.reqs, s.hist.done)
    requires Enabled(cfg, s, l) && (l.Reject? || l.Bug? || l.Serve?)
    ensures CompletedOnce(Step(cfg, s, l).reqs, Step(cfg, s, l).hist.done)
  {
    PopsHead(cfg, s, l);
    assert ChanOrder(s.chans[l.c], l.c, s.reqs);
    CompletesPhase(s.reqs, Step(cfg, s, l).reqs, s.chans[l.c].io[0], s.hist.done, Step(cfg, s, l).hist.done);
  }

  lemma CompletesReadStep(cfg: Config, s: Sys, l: Label)
    requires Good(cfg, s) && CompletedOnce(s.reqs, s.hist.done) && Enabled(cfg, s, l) && OfRead(l)
    ensures CompletedOnce(RequestStep(cfg, s, l).reqs, RequestStep(cfg, s, l).hist.done)
  {
    TouchesRead(cfg, s, l);
    CompletesPhase(s.reqs, RequestStep(cfg, s, l).reqs, l.i, s.hist.done, RequestStep(cfg, s, l).hist.done);
  }

  lemma CompletesWriteStep(cfg: Config, s: Sys, l: Label)
    requires Good(cfg, s) && CompletedOnce(s.reqs, s.hist.done) && Enabled(cfg, s, l) && OfWrite(l)
    ensures CompletedOnce(RequestStep(cfg, s, l).reqs, RequestStep(cfg, s, l).hist.done)
  {
    TouchesWrite(cfg, s, l);
    CompletesPhase(s.reqs, RequestStep(cfg, s, l).reqs, l.i, s.hist.done, RequestStep(cfg, s, l).hist.done);
  }

  lemma CompletesFlushStep(cfg: Config, s: Sys, l: Label)
    requires Good(cfg, s) && CompletedOnce(s.reqs, s.hist.done) && Enabled(cfg, s, l) && OfFlush(l)
    ensures CompletedOnce(FlushStep(cfg, s, l).reqs, FlushStep(cfg, s, l).hist.done)
  {
    TouchesFlush(cfg, s, l);
    CompletesPhase(s.reqs, FlushStep(cfg, s, l).reqs, l.i, s.hist.done, FlushStep(cfg, s, l).hist.done);
  }

  lemma CompletesStep(cfg: Config, s: Sys, l: Label)
    requires Good(cfg, s) && CompletedOnce(s.reqs, s.hist.done) && Enabled(cfg, s, l)
    ensures CompletedOnce(Step(cfg, s, l).reqs, Step(cfg, s, l).hist.done)
  {
    if OfFetch(l) {
      AdvancesSlot(cfg, s, l);
    } else if l.Submit? {
      CompletesSubmit(cfg, s, l.c, l.req);
    } else if l.Reject? || l.Bug? || l.Serve? {
      CompletesPollStep(cfg, s, l);
    } else if OfRead(l) {
      CompletesReadStep(cfg, s, l);
    } else if OfWrite(l) {
      CompletesWriteStep(cfg, s, l);
    } else if OfFlush(l) {
      CompletesFlushStep(cfg, s, l);
    } else if l.Ring? {
      RingsOnly(cfg, s, l);
    }
  }

  // ---------------------------------------------------------------- started fetches

  function Busy(slots: seq<Slot>): nat {
    if slots == [] then 0 else Busy(slots[..|slots| - 1]) + if slots[|slots| - 1].Free? then 0 else 1
  }

  function FailedCount(status: seq<Status>): nat {
    if status == [] then 0 else FailedCount(status[..|status| - 1]) + if status[|status| - 1] == Failed then 1 else 0
  }

  /** Over all channels, the fetches started that are no longer in a slot. */
  function Ended(chans: seq<Chan>): int {
    if chans == [] then 0 else Ended(chans[..|chans| - 1]) + chans[|chans| - 1].started - Busy(chans[|chans| - 1].slots)
  }

  /** Every fetch started in this session is active, has fetched its stripe, or has failed it. */
  ghost predicate FetchesConserved(s: Sys) {
    Ended(s.chans) == s.fetched - s.hist.loaded + FailedCount(s.status)
  }

  lemma {:induction false} BusyUpdate(slots: seq<Slot>, k: nat, slot: Slot)
    requires k < |slots|
    ensures Busy(slots[k := slot]) == Busy(slots) + (if slot.Free? then 0 else 1) - (if slots[k].Free? then 0 else 1)
  {
    var n := |slots| - 1;
    if k == n {
      assert slots[k := slot][..n] == slots[..n];
    } else {
      assert slots[k := slot][..n] == slots[..n][k := slot];
      BusyUpdate(slots[..n], k, slot);
    }
  }

  lemma {:induction false} BusyFree(slots: seq<Slot>)
    requires forall k | 0 <= k < |slots| :: slots[k].Free?
    ensures Busy(slots) == 0
  {
    if slots == [] {
    } else {
      BusyFree(slots[..|slots| - 1]);
    }
  }

  lemma {:induction false} FailedUpdate(status: seq<Status>, x: nat, st: Status)
    requires x < |status|
    ensures FailedCount(status[x := st]) == FailedCount(status)
                  + (if st == Failed then 1 else 0) - (if status[x] == Failed then 1 else 0)
  {
    var n := |status| - 1;
    if x == n {
      assert status[x := st][..n] == status[..n];
    } else {
      assert status[x := st][..n] == status[..n][x := st];
      FailedUpdate(status[..n], x, st);
    }
  }

  lemma {:induction false} FailedNone(status: seq<Status>)
    requires forall x | 0 <= x < |status| :: status[x] != Failed
    ensures FailedCount(status) == 0
  {
    if status == [] {
    } else {
      FailedNone(status[..|status| - 1]);
    }
  }

  lemma {:induction false} EndedUpdate(chans: seq<Chan>, c: nat, ch: Chan)
    requires c < |chans|
    ensures Ended(chans[c := ch]) == Ended(chans)
                  + (ch.started - Busy(ch.slots)) - (chans[c].started - Busy(chans[c].slots))
  {
    var n := |chans| - 1;
    if c == n {
      assert chans[c := ch][..n] == chans[..n];
    } else {
      assert chans[c := ch][..n] == chans[..n][c := ch];
      EndedUpdate(chans[..n], c, ch);
    }
  }

  lemma {:induction false} EndedSame(a: seq<Chan>, b: seq<Chan>)
    requires |a| == |b| && forall c | 0 <= c < |a| :: b[c].started == a[c].started && b[c].slots == a[c].slots
    ensures Ended(a) == Ended(b)
  {
    if a == [] {
    } else {
      EndedSame(a[..|a| - 1], b[..|b| - 1]);
    }
  }

  lemma ConservedFetchStep(cfg: Config, s: Sys, l: Label)
    requires Good(cfg, s) && Fetches(cfg, s) && FetchesConserved(s) && Enabled(cfg, s, l) && OfFetch(l)
    ensures FetchesConserved(Step(cfg, s, l))
  {
    AdvancesSlot(cfg, s, l);
    FetchedOrFailed(cfg, s, l);
    ConservedAdvance(s, Step(cfg, s, l), l.c, l.k);
  }

  /** Fetches of channel `c` that have ended, as far as its entry `k` tells. */
  ghost function EndedAt(s: Sys, c: nat, k: nat): int
    requires InSlot(s, c, k)
  {
    s.chans[c].started - if s.chans[c].slots[k].Free? then 0 else 1
  }

  lemma ConservedAdvance(s: Sys, t: Sys, c: nat, k: nat)
    requires FetchesConserved(s) && Advances(s, t, c, k)
    requires t.fetched + FailedCount(t.status) - s.fetched - FailedCount(s.status)
          == EndedAt(t, c, k) - EndedAt(s, c, k)
    ensures FetchesConserved(t)
  {
    BusyUpdate(s.chans[c].slots, k, t.chans[c].slots[k]);
    EndedUpdate(s.chans, c, t.chans[c]);
  }

  /** What a step of a fetch adds to the stripes fetched and failed. */
  lemma FetchedOrFailed(cfg: Config, s: Sys, l: Label)
    requires Good(cfg, s) && Fetches(cfg, s) && Enabled(cfg, s, l) && OfFetch(l)
    ensures var t := Step(cfg, s, l);
            && InSlot(t, l.c, l.k)
            && t.fetched + FailedCount(t.status) - s.fetched - FailedCount(s.status)
               == EndedAt(t, l.c, l.k) - EndedAt(s, l.c, l.k)
  {
    if !l.StartFetch? {
      SlotInflight(s.status, s.chans, l.c, l.k);
      FailedUpdate(s.status, s.chans[l.c].slots[l.k].stripe, Failed);
      FailedUpdate(s.status, s.chans[l.c].slots[l.k].stripe, Fetched);
    }
  }

  lemma ConservedSubmit(cfg: Config, s: Sys, c: nat, req: Request)
    requires Shape(cfg, s) && FetchesConserved(s) && c < |s.chans| && RequestOk(cfg, req)
    ensures FetchesConserved(SubmitStep(cfg, s, c, req))
  {
    var t := SubmitStep(cfg, s, c, req);
    EndedSame(s.chans, t.chans);
    if t.status != s.status {
      FailedUpdate(s.status, Stripe(cfg, req.start), Inflight);
    }
  }

  lemma ConservedOpen(s: Sys)
    requires FetchesConserved(s)
    ensures FetchesConserved(s.(chans := s.chans + [EmptyChan()]))
  {
    EndedOpen(s.chans);
  }

  lemma EndedOpen(chans: seq<Chan>)
    ensures Ended(chans + [EmptyChan()]) == Ended(chans)
  {
    BusyFree(EmptyChan().slots);
    assert (chans + [EmptyChan()])[..|chans|] == chans;
  }

  lemma ConservedCrash(cfg: Config, s: Sys)
    requires Shape(cfg, s) && Enabled(cfg, s, Crash)
    ensures FetchesConserved(DeviceStep(cfg, s, Crash))
  {
    FailedNone(DeviceStep(cfg, s, Crash).status);
  }

  lemma ConservedTouch(s: Sys, t: Sys, i: nat)
    requires FetchesConserved(s) && Touches(s, t, i) && t.hist.loaded == s.hist.loaded
    ensures FetchesConserved(t)
  {
    EndedSame(s.chans, t.chans);
  }

  lemma ConservedRequest(cfg: Config, s: Sys, l: Label)
    requires Good(cfg, s) && FetchesConserved(s) && Enabled(cfg, s, l) && (OfRead(l) || OfWrite(l) || OfFlush(l))
    ensures FetchesConserved(Step(cfg, s, l))
  {
    TouchesOne(cfg, s, l);
    LoadedSame(cfg, s, l);
    ConservedTouch(s, Step(cfg, s, l), l.i);
  }

  lemma LoadedSame(cfg: Config, s: Sys, l: Label)
    requires Shape(cfg, s) && Enabled(cfg, s, l) && (OfRead(l) || OfWrite(l) || OfFlush(l))
    ensures Step(cfg, s, l).hist.loaded == s.hist.loaded
  {
  }

  lemma ConservedPop(s: Sys, t: Sys, c: nat)
    requires FetchesConserved(s) && Pops(s, t, c)
    ensures FetchesConserved(t)
  {
    EndedSame(s.chans, t.chans);
  }

  lemma ConservedStep(cfg: Config, s: Sys, l: Label)
    requires Good(cfg, s) && Fetches(cfg, s) && FetchesConserved(s) && Enabled(cfg, s, l)
    ensures FetchesConserved(Step(cfg, s, l))
  {
    if OfFetch(l) {
      ConservedFetchStep(cfg, s, l);
    } else if l.Open? {
      ConservedOpen(s);
    } else if l.Submit? {
      ConservedSubmit(cfg, s, l.c, l.req);
    } else if l.Reject? || l.Bug? || l.Serve? {
      PopsHead(cfg, s, l);
      ConservedPop(s, Step(cfg, s, l), l.c);
    } else if OfRead(l) || OfWrite(l) || OfFlush(l) {
      ConservedRequest(cfg, s, l);
    } else if l.Ring? {
      RingsOnly(cfg, s, l);
      EndedSame(s.chans, Step(cfg, s, l).chans);
    } else if l.Crash? {
      ConservedCrash(cfg, s);
    }
  }
}
