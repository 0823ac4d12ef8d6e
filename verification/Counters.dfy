/**
 `stripes_flushed`, exactly: what it counts at every moment of a session, and when a flush may therefore skip the
 metadata.
 */
module Counters {
  import opened Types
  import opened Metadata
  import opened Protocol
  import opened Frames
  import opened Order
  import opened Headers
  import opened Runs
  import opened History
  import opened CrashSafety

  /** Request `i` is a successful flush that made the headers `want` durable. */
  ghost predicate MadeDurable(reqs: seq<Io>, i: nat, want: seq<bool>) {
    i < |reqs| && reqs[i].phase == FlushOk(want)
  }

  /**
   `stripes_flushed` is the largest of the number of stripes loaded at the start of the session and the numbers of
   stripes that successful flushes made durable.
   */
  ghost predicate Credited(reqs: seq<Io>, flushed: nat, loaded: nat) {
    && loaded <= flushed
    && (forall i, want | MadeDurable(reqs, i, want) :: Count(want) <= flushed)
    && (flushed == loaded || exists i, want :: MadeDurable(reqs, i, want) && Count(want) == flushed)
  }

  // ---------------------------------------------------------------- every step

  /** No flush succeeds, and the counter stays. */
  ghost predicate Uncredited(s: Sys, t: Sys) {
    && t.flushed == s.flushed && t.hist.loaded == s.hist.loaded && |s.reqs| <= |t.reqs|
    && forall i | 0 <= i < |t.reqs| ::
         if i < |s.reqs| then
           t.reqs[i].phase == s.reqs[i].phase || (!s.reqs[i].phase.FlushOk? && !t.reqs[i].phase.FlushOk?)
         else !t.reqs[i].phase.FlushOk?
  }

  /** Flush `i` succeeds, and the counter rises to what it made durable, if that is more. */
  ghost predicate Credits(s: Sys, t: Sys, i: nat, want: seq<bool>) {
    && PhaseOnly(s.reqs, t.reqs, i) && !s.reqs[i].phase.FlushOk? && t.reqs[i].phase == FlushOk(want)
    && t.flushed == (if Count(want) > s.flushed then Count(want) else s.flushed) && t.hist.loaded == s.hist.loaded
  }

  lemma UncreditedKeeps(s: Sys, t: Sys)
    requires Uncredited(s, t) && Credited(s.reqs, s.flushed, s.hist.loaded)
    ensures Credited(t.reqs, t.flushed, t.hist.loaded)
  {
    forall i, want | MadeDurable(t.reqs, i, want)
      ensures Count(want) <= t.flushed
    {
      assert MadeDurable(s.reqs, i, want);
    }
    if s.flushed != s.hist.loaded {
      var i, want :| MadeDurable(s.reqs, i, want) && Count(want) == s.flushed;
      assert MadeDurable(t.reqs, i, want);
    }
  }

  lemma CreditsKeeps(s: Sys, t: Sys, i: nat, want: seq<bool>)
    requires Credits(s, t, i, want) && Credited(s.reqs, s.flushed, s.hist.loaded)
    ensures Credited(t.reqs, t.flushed, t.hist.loaded)
  {
    assert MadeDurable(t.reqs, i, want);
    forall j, w | MadeDurable(t.reqs, j, w)
      ensures Count(w) <= t.flushed
    {
      if j != i {
        assert MadeDurable(s.reqs, j, w);
      }
    }
    if t.flushed == s.flushed && s.flushed != s.hist.loaded {
      var j, w :| MadeDurable(s.reqs, j, w) && Count(w) == s.flushed;
      assert MadeDurable(t.reqs, j, w);
    }
  }

  lemma PopUncredited(cfg: Config, s: Sys, l: Label)
    requires Good(cfg, s) && Enabled(cfg, s, l) && (l.Reject? || l.Bug? || l.Serve?)
    ensures Uncredited(s, Step(cfg, s, l))
  {
    PopsHead(cfg, s, l);
    PopPhase(cfg, s, l);
    PoppedWaits(cfg, s, l.c);
  }

  lemma ReadUncredited(cfg: Config, s: Sys, l: Label)
    requires Good(cfg, s) && Enabled(cfg, s, l) && OfRead(l)
    ensures Uncredited(s, RequestStep(cfg, s, l))
  {
    TouchesRead(cfg, s, l);
    ReadStays(cfg, s, l);
  }

  lemma WriteUncredited(cfg: Config, s: Sys, l: Label)
    requires Good(cfg, s) && Enabled(cfg, s, l) && OfWrite(l)
    ensures Uncredited(s, RequestStep(cfg, s, l))
  {
  }

  lemma SubmitUncredited(cfg: Config, s: Sys, c: nat, req: Request)
    requires Shape(cfg, s) && c < |s.chans| && RequestOk(cfg, req)
    ensures Uncredited(s, SubmitStep(cfg, s, c, req))
  {
  }

  /** The two ways in which a flush succeeds. */
  predicate Succeeds(s: Sys, l: Label) {
    (l.MetaFlushDone? && l.ok) || (l.DataFlushDone? && l.ok && s.fetched == s.flushed)
  }

  lemma FlushUncredited(cfg: Config, s: Sys, l: Label)
    requires Good(cfg, s) && Enabled(cfg, s, l) && OfFlush(l) && !Succeeds(s, l)
    ensures Uncredited(s, FlushStep(cfg, s, l))
  {
    TouchesFlush(cfg, s, l);
    TouchedFlush(cfg, s, l);
    Unsuccessful(cfg, s, l);
  }

  lemma Unsuccessful(cfg: Config, s: Sys, l: Label)
    requires Shape(cfg, s) && Enabled(cfg, s, l) && OfFlush(l) && !Succeeds(s, l)
    ensures var t := FlushStep(cfg, s, l);
            && |t.reqs| == |s.reqs| && !t.reqs[l.i].phase.FlushOk?
            && t.flushed == s.flushed && t.hist.loaded == s.hist.loaded
  {
  }

  lemma FlushCredits(cfg: Config, s: Sys, l: Label) returns (want: seq<bool>)
    requires Good(cfg, s) && Flagging(s) && Enabled(cfg, s, l) && OfFlush(l) && Succeeds(s, l)
    ensures Credits(s, FlushStep(cfg, s, l), l.i, want)
  {
    assert PhaseFlags(s.headers, MetaFlags(s.disk.volMeta), MetaFlags(s.disk.durMeta), s.reqs[l.i].phase);
    want := if l.MetaFlushDone? then s.reqs[l.i].phase.want else s.headers;
  }

  lemma CreditedStep(cfg: Config, s: Sys, l: Label)
    requires Good(cfg, s) && Flagging(s) && Credited(s.reqs, s.flushed, s.hist.loaded)
    requires Enabled(cfg, s, l) && !l.Crash?
    ensures Credited(Step(cfg, s, l).reqs, Step(cfg, s, l).flushed, Step(cfg, s, l).hist.loaded)
  {
    if OfFlush(l) {
      StepIsFlush(cfg, s, l);
      if Succeeds(s, l) {
        var want := FlushCredits(cfg, s, l);
        CreditsKeeps(s, FlushStep(cfg, s, l), l.i, want);
      } else {
        FlushUncredited(cfg, s, l);
        UncreditedKeeps(s, FlushStep(cfg, s, l));
      }
    } else {
      OthersUncredited(cfg, s, l);
      UncreditedKeeps(s, Step(cfg, s, l));
    }
  }

  lemma OthersUncredited(cfg: Config, s: Sys, l: Label)
    requires Good(cfg, s) && Enabled(cfg, s, l) && !OfFlush(l) && !l.Crash?
    ensures Uncredited(s, Step(cfg, s, l))
  {
    if OfFetch(l) {
      AdvancesSlot(cfg, s, l);
    } else if l.Reject? || l.Bug? || l.Serve? {
      PopUncredited(cfg, s, l);
    } else if OfRead(l) {
      StepIsRequest(cfg, s, l);
      ReadUncredited(cfg, s, l);
    } else if OfWrite(l) {
      StepIsRequest(cfg, s, l);
      WriteUncredited(cfg, s, l);
    } else if l.Ring? {
      RingsOnly(cfg, s, l);
    } else if l.Submit? {
      SubmitUncredited(cfg, s, l.c, l.req);
    }
  }

  lemma CreditedCrash(cfg: Config, s: Sys)
    requires Shape(cfg, s) && Flagging(s) && Enabled(cfg, s, Crash)
    ensures var t := Step(cfg, s, Crash); Credited(t.reqs, t.flushed, t.hist.loaded)
  {
    Reloads(cfg, s.disk.durMeta);
  }

  /** At every moment `stripes_flushed` is that maximum. */
  lemma {:induction false} FlushedIs(cfg: Config, ss: seq<Sys>, ls: seq<Label>, n: nat)
    requires IsRun(cfg, ss, ls) && n < |ss|
    ensures Credited(ss[n].reqs, ss[n].flushed, ss[n].hist.loaded)
  {
    if n == 0 {
    } else {
      FlushedIs(cfg, ss, ls, n - 1);
      RunSound(cfg, ss, ls, n - 1);
      assert Goes(cfg, ss, ls, n - 1);
      if ls[n - 1].Crash? {
        CreditedCrash(cfg, ss[n - 1]);
      } else {
        CreditedStep(cfg, ss[n - 1], ls[n - 1]);
      }
    }
  }

  // ---------------------------------------------------------------- when the metadata is skipped

  lemma DataFlushEnds(cfg: Config, ss: seq<Sys>, ls: seq<Label>, n: nat)
    requires IsRun(cfg, ss, ls) && n < |ls| && ls[n].DataFlushDone? && ls[n].ok
    ensures ls[n].i < |ss[n + 1].reqs|
    ensures ss[n + 1].reqs[ls[n].i].phase.FlushOk? <==> ss[n].fetched == ss[n].flushed
  {
    assert Goes(cfg, ss, ls, n);
    StepIsFlush(cfg, ss[n], ls[n]);
  }

  /** The headers of all stripes fetched by now were loaded, or made durable by one earlier flush of the session. */
  ghost predicate NothingNew(s: Sys) {
    s.fetched == s.hist.loaded || exists i :: MadeDurable(s.reqs, i, s.headers)
  }

  /** A data flush that ends well completes its flush at once if and only if no header is new. */
  lemma SkipsMetadataIff(cfg: Config, ss: seq<Sys>, ls: seq<Label>, n: nat)
    requires IsRun(cfg, ss, ls) && n < |ls| && ls[n].DataFlushDone? && ls[n].ok
    ensures ls[n].i < |ss[n + 1].reqs|
    ensures ss[n + 1].reqs[ls[n].i].phase.FlushOk? <==> NothingNew(ss[n])
  {
    DataFlushEnds(cfg, ss, ls, n);
    FlushedIs(cfg, ss, ls, n);
    CountersBracketHeaders(cfg, ss, ls, n);
    var s := ss[n];
    if s.fetched == s.flushed && s.flushed != s.hist.loaded {
      var i, want :| MadeDurable(s.reqs, i, want) && Count(want) == s.flushed;
      WantDurable(cfg, ss, ls, n, i);
      CountIncluded(want, s.headers);
    }
  }

  /**
   Step `j` completes the data flush of request `f`, which has succeeded by moment `k`. If no stripe becomes fetched
   between `j` and `n`, a data flush that then ends well completes its flush at once.
   */
  lemma FlushedAgainAtOnce(cfg: Config, ss: seq<Sys>, ls: seq<Label>, j: nat, f: nat, k: nat, n: nat)
    requires IsRun(cfg, ss, ls) && j < k <= n < |ls| && ss[j].hist.session == ss[n].hist.session
    requires ls[j].DataFlushDone? && ls[j].i == f && ls[j].ok
    requires f < |ss[k].reqs| && ss[k].reqs[f].phase.FlushOk?
    requires ls[n].DataFlushDone? && ls[n].ok && |ss[j].status| == |ss[n].status|
    requires forall x | 0 <= x < |ss[n].status| && ss[n].status[x] == Fetched :: ss[j].status[x] == Fetched
    ensures ls[n].i < |ss[n + 1].reqs| && ss[n + 1].reqs[ls[n].i].phase.FlushOk?
  {
    RunStory(cfg, ss, ls);
    Across(ss, j, k);
    Across(ss, k, n);
    DataFlushWants(cfg, ss, ls, j, f);
    Within(ss, j + 1, k);
    Within(ss, k, n);
    SameHeaders(cfg, ss, ls, j, n);
    assert MadeDurable(ss[n].reqs, f, ss[n].headers);
    SkipsMetadataIff(cfg, ss, ls, n);
  }

  lemma SameHeaders(cfg: Config, ss: seq<Sys>, ls: seq<Label>, j: nat, n: nat)
    requires IsRun(cfg, ss, ls) && j <= n < |ss| && ss[j].hist.session == ss[n].hist.session
    requires |ss[j].status| == |ss[n].status|
    requires forall x | 0 <= x < |ss[n].status| && ss[n].status[x] == Fetched :: ss[j].status[x] == Fetched
    ensures ss[n].headers == ss[j].headers
  {
    RunSound(cfg, ss, ls, j);
    RunSound(cfg, ss, ls, n);
    RunStory(cfg, ss, ls);
    Within(ss, j, n);
    forall x | 0 <= x < |ss[n].headers|
      ensures ss[n].headers[x] == ss[j].headers[x]
    {
      assert Onward(ss[j].status[x], ss[n].status[x]);
    }
  }
}
