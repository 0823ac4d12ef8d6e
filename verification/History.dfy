/** How consecutive states, and states further apart in a run, relate. */
module History {
  import opened Types
  import opened Metadata
  import opened Protocol
  import opened Frames
  import opened Order
  import opened Ownership
  import opened Refinement
  import opened Headers
  import opened Durability
  import opened Resources
  import opened Runs

  /** Requests keep their identity, completed and lost ones stay as they are, and reads keep their `born`. */
  ghost predicate Remembers(a: seq<Io>, b: seq<Io>) {
    && |a| <= |b|
    && forall i | 0 <= i < |a| ::
         && b[i].chan == a[i].chan && b[i].req == a[i].req && b[i].mark == a[i].mark
         && (Completed(a[i].phase) || a[i].phase.Lost? ==> b[i].phase == a[i].phase)
         && (ReadInFlight(a[i].phase) ==> ReadsOn(b[i].phase, a[i].phase.born))
         && (a[i].phase.MetaWrite? || a[i].phase.MetaFlush? ==> SyncsOn(b[i].phase, a[i].phase.want))
  }

  /** A flush that has to make `want` durable is under way, or has completed. */
  predicate SyncsOn(phase: Phase, want: seq<bool>) {
    phase.Error? || ((phase.MetaWrite? || phase.MetaFlush? || phase.FlushOk?) && phase.want == want)
  }

  /** A read dispatched with `born` block writes in effect is under way, or has completed. */
  predicate ReadsOn(phase: Phase, born: nat) {
    phase.Error? || ((ReadInFlight(phase) || phase.ReadOk?) && phase.born == born)
  }

  /** A stripe is asked for, then fetched or failed; it never goes back. */
  predicate Onward(a: Status, b: Status) {
    a == b || a == NotFetched || (a == Inflight && (b == Fetched || b == Failed))
  }

  /** Counters and durable headers only grow, and stripes only move on. */
  ghost predicate Accumulates(s: Sys, t: Sys) {
    && s.flushed <= t.flushed && s.fetched <= t.fetched
    && Included(MetaFlags(s.disk.durMeta), MetaFlags(t.disk.durMeta))
    && |s.status| == |t.status| && forall x | 0 <= x < |s.status| :: Onward(s.status[x], t.status[x])
  }

  /** One step later, in the same session. */
  ghost predicate Follows(s: Sys, t: Sys) {
    && Continues(s.hist, t.hist) && |t.hist.log| <= |s.hist.log| + 1
    && Rises(s.hist.floor, t.hist.floor) && t.hist.session == s.hist.session
    && Remembers(s.reqs, t.reqs)
  }

  /** The step is about request `i`. */
  ghost predicate Concerns(s: Sys, l: Label, i: nat) {
    || ((l.Reject? || l.Bug? || l.Serve?) && l.c < |s.chans| && s.chans[l.c].io != [] && s.chans[l.c].io[0] == i)
    || ((OfRead(l) || OfWrite(l) || OfFlush(l)) && l.i == i)
  }

  /** A request changes only in a step that is about it. */
  lemma OnlyConcerned(cfg: Config, s: Sys, l: Label, i: nat)
    requires Good(cfg, s) && Enabled(cfg, s, l) && !l.Crash? && i < |s.reqs|
    ensures i < |Step(cfg, s, l).reqs|
    ensures Concerns(s, l, i) || Step(cfg, s, l).reqs[i] == s.reqs[i]
  {
    if OfFetch(l) {
      AdvancesSlot(cfg, s, l);
    } else if l.Reject? || l.Bug? || l.Serve? {
      OnlyPopped(cfg, s, l, i);
    } else if OfRead(l) || OfWrite(l) || OfFlush(l) {
      OnlyTouched(cfg, s, l, i);
    } else if l.Ring? {
      RingsOnly(cfg, s, l);
    } else {
      OnlyAdded(cfg, s, l, i);
    }
  }

  lemma OnlyPopped(cfg: Config, s: Sys, l: Label, i: nat)
    requires Good(cfg, s) && Enabled(cfg, s, l) && (l.Reject? || l.Bug? || l.Serve?) && i < |s.reqs|
    ensures i < |Step(cfg, s, l).reqs|
    ensures i == s.chans[l.c].io[0] || Step(cfg, s, l).reqs[i] == s.reqs[i]
  {
    PopsHead(cfg, s, l);
  }

  lemma OnlyTouched(cfg: Config, s: Sys, l: Label, i: nat)
    requires Good(cfg, s) && Enabled(cfg, s, l) && (OfRead(l) || OfWrite(l) || OfFlush(l)) && i < |s.reqs|
    ensures i < |Step(cfg, s, l).reqs|
    ensures i == l.i || Step(cfg, s, l).reqs[i] == s.reqs[i]
  {
    TouchesOne(cfg, s, l);
  }

  lemma OnlyAdded(cfg: Config, s: Sys, l: Label, i: nat)
    requires Shape(cfg, s) && Enabled(cfg, s, l) && i < |s.reqs|
    requires l.Open? || l.Submit? || l.Destage? || l.DestageMeta?
    ensures i < |Step(cfg, s, l).reqs| && Step(cfg, s, l).reqs[i] == s.reqs[i]
  {
  }

  /** The phases in which a step can be about a request. */
  lemma ConcernedPhase(cfg: Config, s: Sys, l: Label, i: nat)
    requires Good(cfg, s) && Enabled(cfg, s, l) && Concerns(s, l, i)
    ensures i < |s.reqs|
    ensures OfRead(l) ==> ReadInFlight(s.reqs[i].phase)
    ensures OfWrite(l) ==> s.reqs[i].phase.Writing?
    ensures OfFlush(l) ==> Syncs(s.reqs[i].phase)
    ensures l.Reject? || l.Bug? || l.Serve? ==> s.reqs[i].phase.Waiting?
  {
    if l.Reject? || l.Bug? || l.Serve? {
      PoppedWaits(cfg, s, l.c);
    } else {
      TouchedPhase(cfg, s, l);
    }
  }

  lemma PoppedWaits(cfg: Config, s: Sys, c: nat)
    requires Good(cfg, s) && c < |s.chans| && s.chans[c].io != []
    ensures s.chans[c].io[0] < |s.reqs| && s.reqs[s.chans[c].io[0]].phase.Waiting?
  {
    assert ChanOrder(s.chans[c], c, s.reqs);
  }

  lemma TouchedPhase(cfg: Config, s: Sys, l: Label)
    requires Shape(cfg, s) && Enabled(cfg, s, l) && (OfRead(l) || OfWrite(l) || OfFlush(l))
    ensures l.i < |s.reqs|
    ensures OfRead(l) ==> ReadInFlight(s.reqs[l.i].phase)
    ensures OfWrite(l) ==> s.reqs[l.i].phase.Writing?
    ensures OfFlush(l) ==> Syncs(s.reqs[l.i].phase)
  {
    if OfRead(l) {
      TouchedRead(cfg, s, l);
    } else if OfWrite(l) {
      TouchedWrite(cfg, s, l);
    } else {
      TouchedFlush(cfg, s, l);
    }
  }

  lemma TouchedRead(cfg: Config, s: Sys, l: Label)
    requires Shape(cfg, s) && Enabled(cfg, s, l) && OfRead(l)
    ensures l.i < |s.reqs| && ReadInFlight(s.reqs[l.i].phase)
  {
  }

  lemma TouchedWrite(cfg: Config, s: Sys, l: Label)
    requires Shape(cfg, s) && Enabled(cfg, s, l) && OfWrite(l)
    ensures l.i < |s.reqs| && s.reqs[l.i].phase.Writing?
  {
  }

  lemma TouchedFlush(cfg: Config, s: Sys, l: Label)
    requires Shape(cfg, s) && Enabled(cfg, s, l) && OfFlush(l)
    ensures l.i < |s.reqs| && Syncs(s.reqs[l.i].phase)
  {
  }

  /** The phase in which the poller leaves a request it takes off the list. */
  ghost function Dispatched(cfg: Config, l: Label, req: Request, born: nat): Phase
    requires l.Reject? || l.Bug? || l.Serve?
  {
    if !l.Serve? then Error else
      match req.kind
      case Read => Buffering(born)
      case Write => if l.accepted then Writing(Range(req), map[]) else Lost
      case Flush => if cfg.noSync then FlushSkipped else if l.accepted then DataFlush(Range(req)) else Error
  }

  lemma PopPhase(cfg: Config, s: Sys, l: Label)
    requires Good(cfg, s) && Enabled(cfg, s, l) && (l.Reject? || l.Bug? || l.Serve?)
    ensures var i := s.chans[l.c].io[0];
            && i < |s.reqs| == |Step(cfg, s, l).reqs|
            && Step(cfg, s, l).reqs[i].phase == Dispatched(cfg, l, s.reqs[i].req, |s.hist.log|)
  {
  }

  lemma FollowsPoll(cfg: Config, s: Sys, l: Label)
    requires Good(cfg, s) && Enabled(cfg, s, l) && (l.Reject? || l.Bug? || l.Serve?)
    ensures Follows(s, Step(cfg, s, l))
  {
    PopsHead(cfg, s, l);
    assert ChanOrder(s.chans[l.c], l.c, s.reqs);
  }

  /** A request in flight went on, whatever else happened. */
  lemma FollowsTouch(s: Sys, t: Sys, i: nat)
    requires Touches(s, t, i) && Continues(s.hist, t.hist) && |t.hist.log| <= |s.hist.log| + 1
    requires Rises(s.hist.floor, t.hist.floor) && t.hist.session == s.hist.session
    requires ReadInFlight(s.reqs[i].phase) ==> ReadsOn(t.reqs[i].phase, s.reqs[i].phase.born)
    requires s.reqs[i].phase.MetaWrite? || s.reqs[i].phase.MetaFlush? ==> SyncsOn(t.reqs[i].phase, s.reqs[i].phase.want)
    ensures Follows(s, t)
  {
  }

  lemma FlushHistory(cfg: Config, s: Sys, l: Label)
    requires Shape(cfg, s) && Enabled(cfg, s, l) && OfFlush(l)
    ensures Continues(s.hist, FlushStep(cfg, s, l).hist) && FlushStep(cfg, s, l).hist.log == s.hist.log
    ensures Rises(s.hist.floor, FlushStep(cfg, s, l).hist.floor) && FlushStep(cfg, s, l).hist.session == s.hist.session
  {
  }

  lemma SyncsFlush(cfg: Config, s: Sys, l: Label)
    requires Shape(cfg, s) && Enabled(cfg, s, l) && OfFlush(l)
    ensures |FlushStep(cfg, s, l).reqs| == |s.reqs|
    ensures s.reqs[l.i].phase.MetaWrite? || s.reqs[l.i].phase.MetaFlush? ==>
              SyncsOn(FlushStep(cfg, s, l).reqs[l.i].phase, s.reqs[l.i].phase.want)
  {
  }

  lemma FollowsFlush(cfg: Config, s: Sys, l: Label)
    requires Good(cfg, s) && Enabled(cfg, s, l) && OfFlush(l)
    ensures Follows(s, FlushStep(cfg, s, l))
  {
    TouchesFlush(cfg, s, l);
    FlushHistory(cfg, s, l);
    SyncsFlush(cfg, s, l);
    assert !ReadInFlight(s.reqs[l.i].phase);
    FollowsTouch(s, FlushStep(cfg, s, l), l.i);
  }

  lemma ReadsOnward(cfg: Config, s: Sys, l: Label)
    requires Shape(cfg, s) && Enabled(cfg, s, l) && OfRead(l)
    ensures |RequestStep(cfg, s, l).reqs| == |s.reqs| && ReadInFlight(s.reqs[l.i].phase)
    ensures ReadsOn(RequestStep(cfg, s, l).reqs[l.i].phase, s.reqs[l.i].phase.born)
    ensures RequestStep(cfg, s, l).reqs[l.i].phase.ReadOk? ==>
             RequestStep(cfg, s, l).reqs[l.i].phase.end == |s.hist.log|
  {
  }

  lemma FollowsRead(cfg: Config, s: Sys, l: Label)
    requires Good(cfg, s) && Enabled(cfg, s, l) && OfRead(l)
    ensures Follows(s, RequestStep(cfg, s, l))
  {
    TouchesRead(cfg, s, l);
    ReadsOnward(cfg, s, l);
    FollowsTouch(s, RequestStep(cfg, s, l), l.i);
  }

  lemma FollowsWrite(cfg: Config, s: Sys, l: Label)
    requires Good(cfg, s) && Enabled(cfg, s, l) && OfWrite(l)
    ensures Follows(s, RequestStep(cfg, s, l))
  {
    TouchesWrite(cfg, s, l);
  }

  lemma FollowsStep(cfg: Config, s: Sys, l: Label)
    requires Good(cfg, s) && Enabled(cfg, s, l) && !l.Crash?
    ensures Follows(s, Step(cfg, s, l))
  {
    if OfFetch(l) {
      AdvancesSlot(cfg, s, l);
    } else if l.Reject? || l.Bug? || l.Serve? {
      FollowsPoll(cfg, s, l);
    } else if OfRead(l) {
      FollowsRead(cfg, s, l);
    } else if OfWrite(l) {
      FollowsWrite(cfg, s, l);
    } else if OfFlush(l) {
      FollowsFlush(cfg, s, l);
    } else if l.Ring? {
      RingsOnly(cfg, s, l);
    }
  }

  /** A crash: a new session on what was durable. */
  ghost predicate Restarts(s: Sys, t: Sys) {
    && t.hist.session == s.hist.session + 1 && t.hist.log == s.hist.log && t.hist.floor == s.hist.floor
    && t.disk.durMeta == s.disk.durMeta
  }

  /** Consecutive states, as far as history is concerned. */
  ghost predicate Story(ss: seq<Sys>) {
    forall n | 0 <= n < |ss| - 1 ::
      (Follows(ss[n], ss[n + 1]) && Accumulates(ss[n], ss[n + 1])) || Restarts(ss[n], ss[n + 1])
  }

  lemma StoryStep(cfg: Config, s: Sys, l: Label)
    requires Good(cfg, s) && Fetches(cfg, s) && Flagging(s) && Enabled(cfg, s, l)
    ensures (Follows(s, Step(cfg, s, l)) && Accumulates(s, Step(cfg, s, l))) || Restarts(s, Step(cfg, s, l))
  {
    if !l.Crash? {
      FollowsStep(cfg, s, l);
      AccumulatesStep(cfg, s, l);
    }
  }

  lemma AccumulatesTouch(s: Sys, t: Sys, i: nat)
    requires Touches(s, t, i) && s.flushed <= t.flushed
    requires Included(MetaFlags(s.disk.durMeta), MetaFlags(t.disk.durMeta))
    ensures Accumulates(s, t)
  {
  }

  lemma AccumulatesFetch(cfg: Config, s: Sys, l: Label)
    requires Good(cfg, s) && Fetches(cfg, s) && Enabled(cfg, s, l) && OfFetch(l)
    ensures Accumulates(s, Step(cfg, s, l))
  {
    AdvancesSlot(cfg, s, l);
    SlotInflightIfBusy(cfg, s, l.c, l.k);
  }

  lemma AccumulatesSubmit(cfg: Config, s: Sys, c: nat, req: Request)
    requires Shape(cfg, s) && c < |s.chans| && RequestOk(cfg, req)
    ensures Accumulates(s, SubmitStep(cfg, s, c, req))
  {
  }

  lemma AccumulatesPop(s: Sys, t: Sys, c: nat)
    requires Pops(s, t, c)
    ensures Accumulates(s, t)
  {
  }

  lemma AccumulatesWrite(cfg: Config, s: Sys, l: Label)
    requires Shape(cfg, s) && Enabled(cfg, s, l) && OfWrite(l)
    ensures Accumulates(s, RequestStep(cfg, s, l))
  {
  }

  lemma AccumulatesFlush(cfg: Config, s: Sys, l: Label)
    requires Good(cfg, s) && Flagging(s) && Enabled(cfg, s, l) && OfFlush(l)
    ensures Accumulates(s, FlushStep(cfg, s, l))
  {
  }

  lemma AccumulatesStep(cfg: Config, s: Sys, l: Label)
    requires Good(cfg, s) && Fetches(cfg, s) && Flagging(s) && Enabled(cfg, s, l) && !l.Crash?
    ensures Accumulates(s, Step(cfg, s, l))
  {
    if OfFetch(l) {
      AccumulatesFetch(cfg, s, l);
    } else if l.Reject? || l.Bug? || l.Serve? {
      PopsHead(cfg, s, l);
      AccumulatesPop(s, Step(cfg, s, l), l.c);
    } else if OfRead(l) {
      TouchesRead(cfg, s, l);
      AccumulatesTouch(s, RequestStep(cfg, s, l), l.i);
    } else if OfWrite(l) {
      AccumulatesWrite(cfg, s, l);
    } else if OfFlush(l) {
      AccumulatesFlush(cfg, s, l);
    } else if l.Submit? {
      AccumulatesSubmit(cfg, s, l.c, l.req);
    } else if l.Ring? {
      RingsOnly(cfg, s, l);
    }
  }

  lemma RunStory(cfg: Config, ss: seq<Sys>, ls: seq<Label>)
    requires IsRun(cfg, ss, ls)
    ensures Story(ss)
  {
    forall n | 0 <= n < |ss| - 1
      ensures (Follows(ss[n], ss[n + 1]) && Accumulates(ss[n], ss[n + 1])) || Restarts(ss[n], ss[n + 1])
    {
      RunSound(cfg, ss, ls, n);
      assert Goes(cfg, ss, ls, n);
      StoryStep(cfg, ss[n], ls[n]);
    }
  }

  /** Over crashes too, block writes are only added and promises only raised. */
  lemma {:induction false} Across(ss: seq<Sys>, m: nat, n: nat)
    requires Story(ss) && m <= n < |ss|
    ensures ss[m].hist.log <= ss[n].hist.log && Rises(ss[m].hist.floor, ss[n].hist.floor)
    ensures ss[m].hist.session <= ss[n].hist.session
    ensures Included(MetaFlags(ss[m].disk.durMeta), MetaFlags(ss[n].disk.durMeta))
  {
    if m == n {
    } else {
      Across(ss, m, n - 1);
      assert Follows(ss[n - 1], ss[n]) || Restarts(ss[n - 1], ss[n]);
    }
  }

  /** Within a session the starting disk stays and requests are remembered. */
  lemma {:induction false} Within(ss: seq<Sys>, m: nat, n: nat)
    requires Story(ss) && m <= n < |ss| && ss[m].hist.session == ss[n].hist.session
    ensures Continues(ss[m].hist, ss[n].hist) && Remembers(ss[m].reqs, ss[n].reqs)
    ensures Accumulates(ss[m], ss[n])
  {
    if m == n {
    } else {
      Across(ss, m, n - 1);
      assert Follows(ss[n - 1], ss[n]) && Accumulates(ss[n - 1], ss[n]);
      Within(ss, m, n - 1);
    }
  }
}
