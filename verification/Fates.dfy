/**
 How requests end other than well: exactly which steps complete one with a failure, lose one without
 completing it, or leave a read stranded in an io_uring that nobody submits.
 */
module Fates {
  import opened Types
  import opened Protocol
  import opened Frames
  import opened Order
  import opened Ownership
  import opened Resources
  import opened Progress
  import opened Runs
  import opened History

  // ---------------------------------------------------------------- lost

  /** The base device refuses a write that is being dispatched, or fails a data flush. */
  ghost predicate Loses(s: Sys, l: Label, i: nat) {
    && i < |s.reqs| && Concerns(s, l, i)
    && ((l.DataFlushDone? && !l.ok) || (l.Serve? && !l.accepted && s.reqs[i].req.kind == Write))
  }

  /** What dispatch makes of a request, without the rest of the state. */
  lemma DispatchFails(cfg: Config, l: Label, req: Request, n: nat)
    requires l.Reject? || l.Bug? || l.Serve?
    ensures var p := Dispatched(cfg, l, req, n);
            && (p.Lost? <==> l.Serve? && !l.accepted && req.kind == Write)
            && (p.Error? <==> !l.Serve? || (req.kind == Flush && !cfg.noSync && !l.accepted))
  {
  }

  /** The step that takes request `i` off its list leaves it as dispatched. */
  lemma PopLeaves(cfg: Config, s: Sys, l: Label, i: nat)
    requires Good(cfg, s) && Enabled(cfg, s, l) && (l.Reject? || l.Bug? || l.Serve?) && Concerns(s, l, i)
    ensures i < |s.reqs| == |Step(cfg, s, l).reqs|
    ensures Step(cfg, s, l).reqs[i].phase == Dispatched(cfg, l, s.reqs[i].req, |s.hist.log|)
  {
    PopPhase(cfg, s, l);
  }

  lemma LosesPop(cfg: Config, s: Sys, l: Label, i: nat)
    requires Good(cfg, s) && Enabled(cfg, s, l) && (l.Reject? || l.Bug? || l.Serve?) && Concerns(s, l, i)
    ensures i < |s.reqs| == |Step(cfg, s, l).reqs|
    ensures Step(cfg, s, l).reqs[i].phase.Lost? <==> Loses(s, l, i)
  {
    PopLeaves(cfg, s, l, i);
    DispatchFails(cfg, l, s.reqs[i].req, |s.hist.log|);
  }

  lemma LosesWrite(cfg: Config, s: Sys, l: Label)
    requires Good(cfg, s) && Enabled(cfg, s, l) && OfWrite(l)
    ensures |RequestStep(cfg, s, l).reqs| == |s.reqs| && !RequestStep(cfg, s, l).reqs[l.i].phase.Lost?
  {
  }

  lemma LosesFlush(cfg: Config, s: Sys, l: Label)
    requires Good(cfg, s) && Enabled(cfg, s, l) && OfFlush(l)
    ensures |FlushStep(cfg, s, l).reqs| == |s.reqs|
    ensures FlushStep(cfg, s, l).reqs[l.i].phase.Lost? <==> l.DataFlushDone? && !l.ok
  {
  }

  lemma LosesStep(cfg: Config, s: Sys, l: Label, i: nat)
    requires Good(cfg, s) && Enabled(cfg, s, l) && !l.Crash? && i < |s.reqs| && !s.reqs[i].phase.Lost?
    ensures i < |Step(cfg, s, l).reqs|
    ensures Step(cfg, s, l).reqs[i].phase.Lost? <==> Loses(s, l, i)
  {
    OnlyConcerned(cfg, s, l, i);
    if Concerns(s, l, i) {
      if l.Reject? || l.Bug? || l.Serve? {
        LosesPop(cfg, s, l, i);
      } else if OfFlush(l) {
        StepIsFlush(cfg, s, l);
        LosesFlush(cfg, s, l);
      } else {
        StepIsRequest(cfg, s, l);
        if OfRead(l) {
          ReadsOnward(cfg, s, l);
        } else {
          LosesWrite(cfg, s, l);
        }
      }
    }
  }

  /** A request is lost exactly when the base device refuses its write or fails its data flush. */
  lemma LostExactly(cfg: Config, ss: seq<Sys>, ls: seq<Label>, n: nat, i: nat)
    requires IsRun(cfg, ss, ls) && n < |ls| && !ls[n].Crash? && i < |ss[n].reqs| && !ss[n].reqs[i].phase.Lost?
    ensures i < |ss[n + 1].reqs| && (ss[n + 1].reqs[i].phase.Lost? <==> Loses(ss[n], ls[n], i))
  {
    assert Goes(cfg, ss, ls, n);
    RunSound(cfg, ss, ls, n);
    LosesStep(cfg, ss[n], ls[n], i);
  }

  /** A lost request is never completed. */
  lemma LostForGood(cfg: Config, ss: seq<Sys>, ls: seq<Label>, m: nat, n: nat, i: nat)
    requires IsRun(cfg, ss, ls) && m <= n < |ss| && ss[m].hist.session == ss[n].hist.session
    requires i < |ss[m].reqs| && ss[m].reqs[i].phase.Lost?
    ensures i < |ss[n].reqs| && ss[n].reqs[i].phase.Lost? && i !in ss[n].hist.done
  {
    RunStory(cfg, ss, ls);
    Within(ss, m, n);
    RunSound(cfg, ss, ls, n);
  }

  // ---------------------------------------------------------------- completed with a failure

  /** The environment refuses or fails an operation of request `i`, or has failed the fetch of its stripe. */
  ghost predicate Refuses(cfg: Config, s: Sys, l: Label, i: nat)
    requires Shape(cfg, s)
  {
    && i < |s.reqs| && Concerns(s, l, i)
    && match l
       case Reject(c) => StartsIn(cfg, s.status, s.reqs[i].req, Failed) && !AtLimit(s.reqs, c, s.reqs[i].req)
       case Serve(_, accepted) =>
         || StartsIn(cfg, s.status, s.reqs[i].req, Failed)
         || (s.reqs[i].req.kind == Flush && !cfg.noSync && !accepted)
       case GetBuf(_, ok, accepted) =>
         || !ok
         || ((s.reqs[i].req.start >= |cfg.image| || StartsIn(cfg, s.status, s.reqs[i].req, Fetched)) && !accepted)
       case ImageReadDone(_, ok, _) => !ok
       case BaseReadDone(_, ok) => !ok
       case WriteDone(_, ok) => !ok
       case DataFlushDone(_, ok, accepted) => ok && s.fetched != s.flushed && !accepted
       case MetaWriteDone(_, ok, accepted) => !ok || !accepted
       case MetaFlushDone(_, ok) => !ok
       case _ => false
  }

  /** What the decision about the first request says of it. */
  lemma HeadMeans(cfg: Config, s: Sys, l: Label, i: nat)
    requires Good(cfg, s) && ReadsCounted(s.chans, s.reqs) && Enabled(cfg, s, l) && (l.Reject? || l.Serve?)
    requires Concerns(s, l, i)
    ensures i < |s.reqs|
    ensures l.Reject? ==> StartsIn(cfg, s.status, s.reqs[i].req, Failed) && !AtLimit(s.reqs, l.c, s.reqs[i].req)
    ensures l.Serve? ==> !StartsIn(cfg, s.status, s.reqs[i].req, Failed)
  {
    PoppedWaits(cfg, s, l.c);
    assert IoShape(cfg, s.reqs[i], |s.chans|);
    DecideMeans(cfg, s.status, s.chans[l.c].activeReads, s.reqs[i].req);
  }

  lemma RefusesPop(cfg: Config, s: Sys, l: Label, i: nat)
    requires Good(cfg, s) && Fetches(cfg, s) && ReadsCounted(s.chans, s.reqs) && Enabled(cfg, s, l)
    requires (l.Reject? || l.Bug? || l.Serve?) && Concerns(s, l, i)
    ensures i < |s.reqs| == |Step(cfg, s, l).reqs|
    ensures Step(cfg, s, l).reqs[i].phase.Error? <==> Refuses(cfg, s, l, i)
  {
    PopLeaves(cfg, s, l, i);
    DispatchFails(cfg, l, s.reqs[i].req, |s.hist.log|);
    if !l.Bug? {
      HeadMeans(cfg, s, l, i);
    }
    if l.Bug? {
      NeverUnexpected(cfg, s, l.c);
    }
  }

  lemma RefusesGetBuf(cfg: Config, s: Sys, l: Label)
    requires Good(cfg, s) && ReadsCounted(s.chans, s.reqs) && Enabled(cfg, s, l) && l.GetBuf?
    ensures |RequestStep(cfg, s, l).reqs| == |s.reqs|
    ensures RequestStep(cfg, s, l).reqs[l.i].phase.Error? <==> Refuses(cfg, s, l, l.i)
  {
    RingHasRoom(cfg, s, s.reqs[l.i].chan);
  }

  lemma RefusesTouch(cfg: Config, s: Sys, l: Label)
    requires Good(cfg, s) && Enabled(cfg, s, l) && (OfRead(l) || OfWrite(l)) && !l.GetBuf?
    ensures |RequestStep(cfg, s, l).reqs| == |s.reqs|
    ensures RequestStep(cfg, s, l).reqs[l.i].phase.Error? <==> Refuses(cfg, s, l, l.i)
  {
  }

  lemma RefusesFlush(cfg: Config, s: Sys, l: Label)
    requires Good(cfg, s) && Enabled(cfg, s, l) && OfFlush(l)
    ensures |FlushStep(cfg, s, l).reqs| == |s.reqs|
    ensures FlushStep(cfg, s, l).reqs[l.i].phase.Error? <==> Refuses(cfg, s, l, l.i)
  {
  }

  lemma RefusesStep(cfg: Config, s: Sys, l: Label, i: nat)
    requires Good(cfg, s) && Fetches(cfg, s) && ReadsCounted(s.chans, s.reqs) && Enabled(cfg, s, l) && !l.Crash?
    requires i < |s.reqs| && !s.reqs[i].phase.Error?
    ensures i < |Step(cfg, s, l).reqs|
    ensures Step(cfg, s, l).reqs[i].phase.Error? <==> Refuses(cfg, s, l, i)
  {
    OnlyConcerned(cfg, s, l, i);
    if Concerns(s, l, i) {
      if l.Reject? || l.Bug? || l.Serve? {
        RefusesPop(cfg, s, l, i);
      } else if OfFlush(l) {
        StepIsFlush(cfg, s, l);
        RefusesFlush(cfg, s, l);
      } else {
        StepIsRequest(cfg, s, l);
        if l.GetBuf? {
          RefusesGetBuf(cfg, s, l);
        } else {
          RefusesTouch(cfg, s, l);
        }
      }
    }
  }

  /**
   A submitted request completes with a failure exactly when the environment refuses or fails one of
   its operations, or its stripe could not be fetched; never for want of room or through a wrong turn.
   */
  lemma ErrorExactly(cfg: Config, ss: seq<Sys>, ls: seq<Label>, n: nat, i: nat)
    requires IsRun(cfg, ss, ls) && n < |ls| && !ls[n].Crash? && i < |ss[n].reqs| && !ss[n].reqs[i].phase.Error?
    ensures Shape(cfg, ss[n]) && i < |ss[n + 1].reqs|
    ensures ss[n + 1].reqs[i].phase.Error? <==> Refuses(cfg, ss[n], ls[n], i)
  {
    assert Goes(cfg, ss, ls, n);
    RunSound(cfg, ss, ls, n);
    RefusesStep(cfg, ss[n], ls[n], i);
  }

  // ---------------------------------------------------------------- stripes

  /** What a step can do to the status of a stripe. */
  ghost predicate Moves(s: Sys, l: Label, a: Status, b: Status, x: nat) {
    || a == b
    || (a == NotFetched && b == Inflight && l.Submit?)
    || (a == Inflight && b == Fetched && l.FetchDone? && InSlot(s, l.c, l.k)
        && s.chans[l.c].slots[l.k] == Copying(x, {}))
    || (a == Inflight && b == Failed && l.FetchRead? && InSlot(s, l.c, l.k) && s.chans[l.c].slots[l.k] == Reading(x)
        && !(l.readOk && l.accepted))
  }

  lemma MovesStep(cfg: Config, s: Sys, l: Label, x: nat)
    requires Good(cfg, s) && Fetches(cfg, s) && Enabled(cfg, s, l) && !l.Crash? && x < MAX_STRIPES
    ensures |Step(cfg, s, l).status| == MAX_STRIPES && Moves(s, l, s.status[x], Step(cfg, s, l).status[x], x)
  {
    if OfFetch(l) {
      MovesFetch(cfg, s, l, x);
    } else if l.Reject? || l.Bug? || l.Serve? {
      PopsHead(cfg, s, l);
    } else if OfRead(l) || OfWrite(l) || OfFlush(l) {
      TouchesOne(cfg, s, l);
    } else if l.Ring? {
      RingsOnly(cfg, s, l);
    }
  }

  lemma MovesFetch(cfg: Config, s: Sys, l: Label, x: nat)
    requires Good(cfg, s) && Fetches(cfg, s) && Enabled(cfg, s, l) && OfFetch(l) && x < MAX_STRIPES
    ensures |Step(cfg, s, l).status| == MAX_STRIPES && Moves(s, l, s.status[x], Step(cfg, s, l).status[x], x)
  {
    if !s.chans[l.c].slots[l.k].Free? {
      SlotInflight(s.status, s.chans, l.c, l.k);
    }
  }

  /**
   One step at a time: a stripe leaves "not fetched" only by being asked for, becomes fetched only when its
   copy is complete, and failed only when the image read fails or the base device refuses the copy.
   */
  lemma StatusSteps(cfg: Config, ss: seq<Sys>, ls: seq<Label>, n: nat, x: nat)
    requires IsRun(cfg, ss, ls) && n < |ls| && !ls[n].Crash? && x < MAX_STRIPES
    ensures |ss[n].status| == |ss[n + 1].status| == MAX_STRIPES
    ensures Moves(ss[n], ls[n], ss[n].status[x], ss[n + 1].status[x], x)
  {
    RunSound(cfg, ss, ls, n);
    assert Goes(cfg, ss, ls, n);
    MovesStep(cfg, ss[n], ls[n], x);
  }

  /** No stripe that sticks out of the device is ever fetched, so no write to its image blocks is ever dispatched. */
  lemma UnfitNeverServed(cfg: Config, ss: seq<Sys>, ls: seq<Label>, n: nat, c: nat)
    requires IsRun(cfg, ss, ls) && n < |ss| && c < |ss[n].chans| && Shape(cfg, ss[n]) && HeadIs(cfg, ss[n], c, Servable)
    ensures var req := ss[n].reqs[ss[n].chans[c].io[0]].req;
            OnImage(cfg, req) && Fetching(cfg, req) ==> Fits(cfg, Stripe(cfg, req.start))
  {
    RunSound(cfg, ss, ls, n);
  }

  // ---------------------------------------------------------------- stranded

  /** Reads go to the image only without copy_on_read, and only if there is an image. */
  ghost predicate Uncopied(cfg: Config, s: Sys)
    requires Shape(cfg, s)
  {
    forall i | 0 <= i < |s.reqs| ::
      && (s.reqs[i].phase.ImageRead? ==> !cfg.copyOnRead && cfg.image != [])
      && (s.reqs[i].phase.Buffering? && OnImage(cfg, s.reqs[i].req) && cfg.copyOnRead ==>
            s.status[Stripe(cfg, s.reqs[i].req.start)] == Fetched)
  }

  lemma UncopiedPop(cfg: Config, s: Sys, l: Label)
    requires Good(cfg, s) && Uncopied(cfg, s) && Enabled(cfg, s, l) && (l.Reject? || l.Bug? || l.Serve?)
    requires Shape(cfg, Step(cfg, s, l))
    ensures Uncopied(cfg, Step(cfg, s, l))
  {
    PopsHead(cfg, s, l);
  }

  lemma UncopiedRead(cfg: Config, s: Sys, l: Label)
    requires Good(cfg, s) && Uncopied(cfg, s) && Enabled(cfg, s, l) && OfRead(l)
    requires Shape(cfg, RequestStep(cfg, s, l))
    ensures Uncopied(cfg, RequestStep(cfg, s, l))
  {
    TouchesRead(cfg, s, l);
    UncopiedPhase(cfg, s, l);
  }

  lemma UncopiedPhase(cfg: Config, s: Sys, l: Label)
    requires Shape(cfg, s) && Uncopied(cfg, s) && Enabled(cfg, s, l) && OfRead(l)
    ensures |RequestStep(cfg, s, l).reqs| == |s.reqs| && !RequestStep(cfg, s, l).reqs[l.i].phase.Buffering?
    ensures RequestStep(cfg, s, l).reqs[l.i].phase.ImageRead? ==> !cfg.copyOnRead && cfg.image != []
  {
  }

  lemma UncopiedWrite(cfg: Config, s: Sys, l: Label)
    requires Good(cfg, s) && Uncopied(cfg, s) && Enabled(cfg, s, l) && OfWrite(l)
    requires Shape(cfg, RequestStep(cfg, s, l))
    ensures Uncopied(cfg, RequestStep(cfg, s, l))
  {
    TouchesWrite(cfg, s, l);
  }

  lemma UncopiedFlush(cfg: Config, s: Sys, l: Label)
    requires Good(cfg, s) && Uncopied(cfg, s) && Enabled(cfg, s, l) && OfFlush(l)
    requires Shape(cfg, FlushStep(cfg, s, l))
    ensures Uncopied(cfg, FlushStep(cfg, s, l))
  {
    TouchesFlush(cfg, s, l);
  }

  lemma UncopiedFetch(cfg: Config, s: Sys, l: Label)
    requires Good(cfg, s) && Fetches(cfg, s) && Uncopied(cfg, s) && Enabled(cfg, s, l) && OfFetch(l)
    requires Shape(cfg, Step(cfg, s, l))
    ensures Uncopied(cfg, Step(cfg, s, l))
  {
    AdvancesSlot(cfg, s, l);
    forall i | 0 <= i < |s.reqs| && s.reqs[i].phase.Buffering? && OnImage(cfg, s.reqs[i].req) && cfg.copyOnRead
      ensures Step(cfg, s, l).status[Stripe(cfg, s.reqs[i].req.start)] == Fetched
    {
      MovesFetch(cfg, s, l, Stripe(cfg, s.reqs[i].req.start));
    }
  }

  lemma UncopiedSubmit(cfg: Config, s: Sys, c: nat, req: Request)
    requires Shape(cfg, s) && Uncopied(cfg, s) && c < |s.chans| && RequestOk(cfg, req)
    requires Shape(cfg, SubmitStep(cfg, s, c, req))
    ensures Uncopied(cfg, SubmitStep(cfg, s, c, req))
  {
  }

  lemma UncopiedStep(cfg: Config, s: Sys, l: Label)
    requires Good(cfg, s) && Fetches(cfg, s) && Uncopied(cfg, s) && Enabled(cfg, s, l)
    ensures Shape(cfg, Step(cfg, s, l)) && Uncopied(cfg, Step(cfg, s, l))
  {
    GoodStep(cfg, s, l);
    if OfFetch(l) {
      UncopiedFetch(cfg, s, l);
    } else if l.Reject? || l.Bug? || l.Serve? {
      UncopiedPop(cfg, s, l);
    } else if OfRead(l) {
      StepIsRequest(cfg, s, l);
      UncopiedRead(cfg, s, l);
    } else if OfWrite(l) {
      StepIsRequest(cfg, s, l);
      UncopiedWrite(cfg, s, l);
    } else if OfFlush(l) {
      StepIsFlush(cfg, s, l);
      UncopiedFlush(cfg, s, l);
    } else if l.Ring? {
      RingsOnly(cfg, s, l);
    } else if l.Submit? {
      UncopiedSubmit(cfg, s, l.c, l.req);
    }
  }

  lemma {:induction false} RunUncopied(cfg: Config, ss: seq<Sys>, ls: seq<Label>, n: nat)
    requires IsRun(cfg, ss, ls) && n < |ss|
    ensures Shape(cfg, ss[n]) && Uncopied(cfg, ss[n])
  {
    RunSound(cfg, ss, ls, n);
    if n == 0 {
    } else {
      RunUncopied(cfg, ss, ls, n - 1);
      RunSound(cfg, ss, ls, n - 1);
      assert Goes(cfg, ss, ls, n - 1);
      UncopiedStep(cfg, ss[n - 1], ls[n - 1]);
    }
  }

  /** A buffer arrives when no poll is under way and nothing waits, or the submission that ends such a poll fails. */
  ghost predicate Strands(cfg: Config, s: Sys, l: Label, i: nat)
    requires Shape(cfg, s)
  {
    && i < |s.reqs|
    && var ch := s.chans[s.reqs[i].chan];
       || (l.GetBuf? && l.i == i && l.ok && !Backed(cfg, s.status, s.reqs[i].req.start) && !Began(ch))
       || (l.Ring? && !l.ok && l.c == s.reqs[i].chan && i in ch.prepared && s.reqs[i].phase.ImageRead?
           && ch.io == [] && ch.queue == [])
  }

  lemma StrandsRing(cfg: Config, s: Sys, l: Label, i: nat)
    requires Good(cfg, s) && Enabled(cfg, s, l) && l.Ring? && i < |s.reqs| && !Stranded(s, i)
    ensures Stranded(Step(cfg, s, l), i) <==> Strands(cfg, s, l, i)
  {
  }

  lemma StrandsGetBuf(cfg: Config, s: Sys, l: Label, i: nat)
    requires Good(cfg, s) && ReadsCounted(s.chans, s.reqs) && Enabled(cfg, s, l) && l.GetBuf?
    requires i < |s.reqs| && !Stranded(s, i)
    ensures Stranded(RequestStep(cfg, s, l), i) <==> Strands(cfg, s, l, i)
  {
    RingHasRoom(cfg, s, s.reqs[l.i].chan);
    TouchesRead(cfg, s, l);
  }

  /** The channel of a read that is not stranded neither ends a poll nor prepares a read. */
  ghost predicate Quiet(s: Sys, t: Sys, i: nat) {
    && i < |s.reqs| <= |t.reqs| && s.reqs[i].chan < |s.chans| <= |t.chans|
    && (t.reqs[i] == s.reqs[i] || !t.reqs[i].phase.ImageRead?)
    && var a, b := s.chans[s.reqs[i].chan], t.chans[s.reqs[i].chan];
       Began(b) || (a.prepared == b.prepared && (Began(a) ==> Began(b)))
  }

  lemma QuietFetch(cfg: Config, s: Sys, l: Label, i: nat)
    requires Good(cfg, s) && Enabled(cfg, s, l) && OfFetch(l) && i < |s.reqs|
    ensures Quiet(s, Step(cfg, s, l), i)
  {
    AdvancesSlot(cfg, s, l);
  }

  lemma QuietPop(cfg: Config, s: Sys, l: Label, i: nat)
    requires Good(cfg, s) && Enabled(cfg, s, l) && (l.Reject? || l.Bug? || l.Serve?) && i < |s.reqs|
    ensures Quiet(s, Step(cfg, s, l), i)
  {
    PopsHead(cfg, s, l);
    PopPhase(cfg, s, l);
  }

  lemma QuietStep(cfg: Config, s: Sys, l: Label, i: nat)
    requires Good(cfg, s) && Enabled(cfg, s, l) && i < |s.reqs| && !l.GetBuf? && !l.Ring? && !l.Crash?
    ensures Quiet(s, Step(cfg, s, l), i)
  {
    if OfFetch(l) {
      QuietFetch(cfg, s, l, i);
    } else if l.Reject? || l.Bug? || l.Serve? {
      QuietPop(cfg, s, l, i);
    } else if OfRead(l) {
      StepIsRequest(cfg, s, l);
      QuietRead(cfg, s, l, i);
    } else if OfWrite(l) {
      StepIsRequest(cfg, s, l);
      QuietWrite(cfg, s, l, i);
    } else if OfFlush(l) {
      StepIsFlush(cfg, s, l);
      QuietFlush(cfg, s, l, i);
    } else if l.Submit? {
      QuietSubmit(cfg, s, l.c, l.req, i);
    }
  }

  lemma EntriesStay(cfg: Config, s: Sys, l: Label)
    requires Shape(cfg, s) && Enabled(cfg, s, l) && OfRead(l) && !l.GetBuf?
    ensures var t := RequestStep(cfg, s, l);
            && |t.reqs| == |s.reqs| && !t.reqs[l.i].phase.ImageRead? && |t.chans| == |s.chans|
            && forall c | 0 <= c < |s.chans| :: t.chans[c] == s.chans[c].(activeReads := t.chans[c].activeReads)
  {
  }

  lemma QuietRead(cfg: Config, s: Sys, l: Label, i: nat)
    requires Good(cfg, s) && Enabled(cfg, s, l) && OfRead(l) && !l.GetBuf? && i < |s.reqs|
    ensures Quiet(s, RequestStep(cfg, s, l), i)
  {
    TouchesRead(cfg, s, l);
    EntriesStay(cfg, s, l);
  }

  lemma QuietWrite(cfg: Config, s: Sys, l: Label, i: nat)
    requires Good(cfg, s) && Enabled(cfg, s, l) && OfWrite(l) && i < |s.reqs|
    ensures Quiet(s, RequestStep(cfg, s, l), i)
  {
    TouchesWrite(cfg, s, l);
    WriteNears(cfg, s, l);
  }

  lemma QuietFlush(cfg: Config, s: Sys, l: Label, i: nat)
    requires Good(cfg, s) && Enabled(cfg, s, l) && OfFlush(l) && i < |s.reqs|
    ensures Quiet(s, FlushStep(cfg, s, l), i)
  {
    TouchesFlush(cfg, s, l);
    FlushNears(cfg, s, l);
    TouchedPhase(cfg, s, l);
  }

  lemma QuietSubmit(cfg: Config, s: Sys, c: nat, req: Request, i: nat)
    requires Shape(cfg, s) && c < |s.chans| && RequestOk(cfg, req) && i < |s.reqs|
    ensures Quiet(s, SubmitStep(cfg, s, c, req), i)
  {
  }

  lemma StrandsStep(cfg: Config, s: Sys, l: Label, i: nat)
    requires Good(cfg, s) && ReadsCounted(s.chans, s.reqs) && Enabled(cfg, s, l) && !l.Crash?
    requires i < |s.reqs| && !Stranded(s, i)
    ensures Stranded(Step(cfg, s, l), i) <==> Strands(cfg, s, l, i)
  {
    if l.Ring? {
      StrandsRing(cfg, s, l, i);
    } else if l.GetBuf? {
      StepIsRequest(cfg, s, l);
      StrandsGetBuf(cfg, s, l, i);
    } else {
      QuietStep(cfg, s, l, i);
    }
  }

  /** A read becomes stranded exactly when its buffer comes too late, or the last submission for it fails. */
  lemma StrandedExactly(cfg: Config, ss: seq<Sys>, ls: seq<Label>, n: nat, i: nat)
    requires IsRun(cfg, ss, ls) && n < |ls| && !ls[n].Crash? && i < |ss[n].reqs| && !Stranded(ss[n], i)
    ensures Shape(cfg, ss[n]) && (Stranded(ss[n + 1], i) <==> Strands(cfg, ss[n], ls[n], i))
  {
    assert Goes(cfg, ss, ls, n);
    RunSound(cfg, ss, ls, n);
    StrandsStep(cfg, ss[n], ls[n], i);
  }

  /** Nothing touches the channel of a stranded read, except that other reads may join it. */
  ghost predicate Idles(s: Sys, t: Sys, i: nat) {
    && i < |s.reqs| <= |t.reqs| && s.reqs[i].chan < |s.chans| <= |t.chans| && t.reqs[i] == s.reqs[i]
    && var a, b := s.chans[s.reqs[i].chan], t.chans[s.reqs[i].chan];
       a.prepared <= b.prepared && b.io == a.io && b.queue == a.queue && b.polling == a.polling
  }

  lemma IdlesFetch(cfg: Config, s: Sys, l: Label, i: nat)
    requires Good(cfg, s) && Enabled(cfg, s, l) && OfFetch(l) && Stranded(s, i)
    ensures Idles(s, Step(cfg, s, l), i)
  {
    AdvancesSlot(cfg, s, l);
  }

  lemma IdlesPop(cfg: Config, s: Sys, l: Label, i: nat)
    requires Good(cfg, s) && Enabled(cfg, s, l) && (l.Reject? || l.Bug? || l.Serve?) && Stranded(s, i)
    ensures Idles(s, Step(cfg, s, l), i)
  {
    PopsHead(cfg, s, l);
    assert ChanOrder(s.chans[l.c], l.c, s.reqs);
  }

  lemma IdlesRead(cfg: Config, s: Sys, l: Label, i: nat)
    requires Good(cfg, s) && Enabled(cfg, s, l) && OfRead(l) && Stranded(s, i)
    ensures Idles(s, RequestStep(cfg, s, l), i)
  {
    TouchesRead(cfg, s, l);
    ReadPrepares(cfg, s, l);
  }

  lemma IdlesStep(cfg: Config, s: Sys, l: Label, i: nat)
    requires Good(cfg, s) && Enabled(cfg, s, l) && Stranded(s, i) && !l.Crash?
    requires !(l.Submit? && l.c == s.reqs[i].chan)
    ensures Idles(s, Step(cfg, s, l), i)
  {
    if OfFetch(l) {
      IdlesFetch(cfg, s, l, i);
    } else if l.Reject? || l.Bug? || l.Serve? {
      IdlesPop(cfg, s, l, i);
    } else if OfRead(l) {
      StepIsRequest(cfg, s, l);
      IdlesRead(cfg, s, l, i);
    } else if OfWrite(l) {
      StepIsRequest(cfg, s, l);
      TouchesWrite(cfg, s, l);
    } else if OfFlush(l) {
      StepIsFlush(cfg, s, l);
      TouchesFlush(cfg, s, l);
    } else if l.Submit? {
      IdlesSubmit(cfg, s, l.c, l.req, i);
    }
  }

  lemma IdlesSubmit(cfg: Config, s: Sys, c: nat, req: Request, i: nat)
    requires Shape(cfg, s) && c < |s.chans| && RequestOk(cfg, req) && Stranded(s, i) && c != s.reqs[i].chan
    ensures Idles(s, SubmitStep(cfg, s, c, req), i)
  {
  }

  /** A stranded read stays so, and uncompleted, until the next request on its channel or a crash. */
  lemma {:induction false} StrandedUntilSubmit(cfg: Config, ss: seq<Sys>, ls: seq<Label>, m: nat, n: nat, i: nat)
    requires IsRun(cfg, ss, ls) && m <= n < |ss| && Stranded(ss[m], i)
    requires forall k | m <= k < n :: !ls[k].Crash? && !(ls[k].Submit? && ls[k].c == ss[m].reqs[i].chan)
    ensures Stranded(ss[n], i) && ss[n].reqs[i] == ss[m].reqs[i] && i !in ss[n].hist.done
    decreases n - m
  {
    RunSound(cfg, ss, ls, n);
    if m == n {
    } else {
      StrandedUntilSubmit(cfg, ss, ls, m, n - 1, i);
      RunSound(cfg, ss, ls, n - 1);
      assert Goes(cfg, ss, ls, n - 1);
      IdlesStep(cfg, ss[n - 1], ls[n - 1], i);
    }
  }
}
