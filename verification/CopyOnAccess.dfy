/**
 The central promise: a bdev behaves like a disk onto which the image was copied beforehand,
 although the copying happens lazily, stripe by stripe, while requests are served.
 */
module CopyOnAccess {
  import opened Types
  import opened Protocol
  import opened Frames
  import opened Order
  import opened Refinement
  import opened Runs
  import opened History

  /** The contents of block `b` as the bdev presents it. */
  ghost function Content(cfg: Config, s: Sys, b: nat): Cell
    requires Shape(cfg, s) && b < cfg.blocks
  {
    Logical(cfg, s.status, s.disk.vol, b)
  }

  /**
   The bdev is a plain disk. It starts as the image followed by the initial contents of the base
   device, and at every moment it is the starting disk of the session with the block writes applied.
   */
  lemma RefinesPlainDisk(cfg: Config, ss: seq<Sys>, ls: seq<Label>, n: nat, b: nat)
    requires IsRun(cfg, ss, ls) && CopiesExact(cfg) && n < |ss| && b < cfg.blocks
    ensures Shape(cfg, ss[n])
    ensures Content(cfg, ss[n], b) == Plain(ss[n].hist.start, ss[n].hist.log, ss[n].hist.epoch, |ss[n].hist.log|, b)
    ensures ss[n].hist.session == 0 ==> ss[n].hist.start == CopiedDisk(cfg) && ss[n].hist.epoch == 0
  {
    RunFaithful(cfg, ss, ls, n);
    RunStory(cfg, ss, ls);
    if ss[n].hist.session == 0 {
      Within(ss, 0, n);
    }
  }

  /** No step of a fetch, a read or a flush changes the disk; a block write changes its own block only. */
  lemma OnlyWritesChange(cfg: Config, ss: seq<Sys>, ls: seq<Label>, n: nat, b: nat)
    requires IsRun(cfg, ss, ls) && CopiesExact(cfg) && n < |ls| && b < cfg.blocks && !ls[n].Crash?
    ensures Shape(cfg, ss[n]) && Shape(cfg, ss[n + 1])
    ensures if ls[n].WriteApply? && ls[n].b == b then
              && ls[n].i < |ss[n].reqs|
              && var req := ss[n].reqs[ls[n].i].req;
              && req.start <= b < req.start + req.count == req.start + |req.data|
              && Content(cfg, ss[n + 1], b) == Cell(req.data[b - req.start], |ss[n].hist.log| + 1)
            else
              Content(cfg, ss[n + 1], b) == Content(cfg, ss[n], b)
  {
    assert Goes(cfg, ss, ls, n);
    RefinesPlainDisk(cfg, ss, ls, n, b);
    RefinesPlainDisk(cfg, ss, ls, n + 1, b);
    var s, t := ss[n].hist, ss[n + 1].hist;
    RunSound(cfg, ss, ls, n);
    LogStep(cfg, ss[n], ls[n]);
    PlainExtends(s.start, s.log, t.log, s.epoch, |s.log|, b);
  }

  lemma LogStep(cfg: Config, s: Sys, l: Label)
    requires Good(cfg, s) && Enabled(cfg, s, l) && !l.Crash?
    ensures var t := Step(cfg, s, l);
            && Continues(s.hist, t.hist)
            && (if l.WriteApply? then
                  && l.b in Range(s.reqs[l.i].req) && s.reqs[l.i].req.count == |s.reqs[l.i].req.data|
                  && t.hist.log == s.hist.log + [Entry(l.b, s.reqs[l.i].req.data[l.b - s.reqs[l.i].req.start])]
                else t.hist.log == s.hist.log)
  {
    if l.WriteApply? {
      WriteApplyLogs(cfg, s, l);
    } else if OfFetch(l) {
      AdvancesSlot(cfg, s, l);
    } else if l.Reject? || l.Bug? || l.Serve? {
      PopsHead(cfg, s, l);
    } else if OfRead(l) {
      TouchesRead(cfg, s, l);
    } else if OfFlush(l) {
      FollowsFlush(cfg, s, l);
      FlushKeepsLog(cfg, s, l);
    } else if l.Ring? {
      RingsOnly(cfg, s, l);
    }
  }

  lemma WriteApplyLogs(cfg: Config, s: Sys, l: Label)
    requires Shape(cfg, s) && Enabled(cfg, s, l) && l.WriteApply?
    ensures l.b in Range(s.reqs[l.i].req) && s.reqs[l.i].req.count == |s.reqs[l.i].req.data|
    ensures var req := s.reqs[l.i].req;
            Step(cfg, s, l).hist == s.hist.(log := s.hist.log + [Entry(l.b, req.data[l.b - req.start])])
  {
    assert IoShape(cfg, s.reqs[l.i], |s.chans|);
    StepIsRequest(cfg, s, l);
  }

  lemma FlushKeepsLog(cfg: Config, s: Sys, l: Label)
    requires Good(cfg, s) && Enabled(cfg, s, l) && OfFlush(l)
    ensures FlushStep(cfg, s, l).hist.log == s.hist.log
  {
  }

  // ---------------------------------------------------------------- reads

  /** The number of block writes passes through every value between two moments of a session. */
  lemma {:induction false} FindInstant(ss: seq<Sys>, d: nat, e: nat, at: nat) returns (m: nat)
    requires Story(ss) && d <= e < |ss| && ss[d].hist.session == ss[e].hist.session
    requires |ss[d].hist.log| <= at <= |ss[e].hist.log|
    ensures d <= m <= e && |ss[m].hist.log| == at && ss[m].hist.session == ss[e].hist.session
  {
    if |ss[e].hist.log| == at {
      m := e;
    } else {
      Across(ss, d, e - 1);
      assert Follows(ss[e - 1], ss[e]);
      m := FindInstant(ss, d, e - 1, at);
    }
  }

  /** What the plain disk of a session held after `at` block writes is what the bdev held at that moment. */
  lemma ContentAt(cfg: Config, ss: seq<Sys>, ls: seq<Label>, m: nat, n: nat, b: nat)
    requires IsRun(cfg, ss, ls) && CopiesExact(cfg) && m <= n < |ss| && ss[m].hist.session == ss[n].hist.session
    requires b < cfg.blocks
    ensures Shape(cfg, ss[m]) && |ss[n].hist.start| == cfg.blocks
    ensures ss[n].hist.epoch <= |ss[m].hist.log| <= |ss[n].hist.log|
    ensures Content(cfg, ss[m], b) == Plain(ss[n].hist.start, ss[n].hist.log, ss[n].hist.epoch, |ss[m].hist.log|, b)
  {
    RefinesPlainDisk(cfg, ss, ls, m, b);
    RunStory(cfg, ss, ls);
    Within(ss, m, n);
    PlainExtends(ss[m].hist.start, ss[m].hist.log, ss[n].hist.log, ss[m].hist.epoch, |ss[m].hist.log|, b);
  }

  /** Step `d` dispatches the read that is request `i`. */
  ghost predicate Dispatches(s: Sys, l: Label, i: nat) {
    && l.Serve? && l.c < |s.chans| && s.chans[l.c].io != [] && s.chans[l.c].io[0] == i
    && i < |s.reqs| && s.reqs[i].req.kind == Read
  }

  lemma DispatchBorn(cfg: Config, ss: seq<Sys>, ls: seq<Label>, d: nat, i: nat)
    requires IsRun(cfg, ss, ls) && d < |ls| && Dispatches(ss[d], ls[d], i)
    ensures i < |ss[d + 1].reqs| && ss[d + 1].reqs[i].phase == Buffering(|ss[d].hist.log|)
    ensures ss[d + 1].hist == ss[d].hist
  {
    assert Goes(cfg, ss, ls, d);
  }

  lemma ReadOkSaw(cfg: Config, ss: seq<Sys>, ls: seq<Label>, n: nat, i: nat, b: nat)
    requires IsRun(cfg, ss, ls) && Harmless(cfg) && n < |ss| && i < |ss[n].reqs| && ss[n].reqs[i].phase.ReadOk?
    requires b in Range(ss[n].reqs[i].req)
    ensures b in ss[n].reqs[i].phase.got && b < cfg.blocks
    ensures Saw(ss[n].hist, b, ss[n].reqs[i].phase.got[b], ss[n].reqs[i].phase.born, ss[n].reqs[i].phase.end)
  {
    RunFaithful(cfg, ss, ls, n);
    assert IoShape(cfg, ss[n].reqs[i], |ss[n].chans|);
    assert PhaseMirrors(cfg, ss[n].status, ss[n].hist, ss[n].reqs[i].req, ss[n].reqs[i].phase);
  }

  /** The step that completes a read records the writes then in effect. */
  lemma EndsNow(cfg: Config, ss: seq<Sys>, ls: seq<Label>, e: nat, i: nat)
    requires IsRun(cfg, ss, ls) && e < |ls| && i < |ss[e].reqs| && ReadInFlight(ss[e].reqs[i].phase)
    requires i < |ss[e + 1].reqs| && ss[e + 1].reqs[i].phase.ReadOk?
    ensures ss[e + 1].reqs[i].phase.end == |ss[e].hist.log|
  {
    RunSound(cfg, ss, ls, e);
    assert Goes(cfg, ss, ls, e);
    EndsNowStep(cfg, ss[e], ls[e], i);
  }

  lemma EndsNowStep(cfg: Config, s: Sys, l: Label, i: nat)
    requires Good(cfg, s) && Enabled(cfg, s, l) && i < |s.reqs| && ReadInFlight(s.reqs[i].phase)
    requires i < |Step(cfg, s, l).reqs| && Step(cfg, s, l).reqs[i].phase.ReadOk?
    ensures Step(cfg, s, l).reqs[i].phase.end == |s.hist.log|
  {
    if OfRead(l) {
      StepIsRequest(cfg, s, l);
      ReadsOnward(cfg, s, l);
      TouchesRead(cfg, s, l);
    } else {
      OthersWait(cfg, s, l, i);
    }
  }

  /** Only a step of the read itself completes it. */
  lemma OthersWait(cfg: Config, s: Sys, l: Label, i: nat)
    requires Good(cfg, s) && Enabled(cfg, s, l) && i < |s.reqs| && ReadInFlight(s.reqs[i].phase) && !OfRead(l)
    ensures i < |Step(cfg, s, l).reqs| ==> Step(cfg, s, l).reqs[i].phase == s.reqs[i].phase
  {
    if !l.Crash? {
      OnlyConcerned(cfg, s, l, i);
      if Concerns(s, l, i) {
        ConcernedPhase(cfg, s, l, i);
      }
    }
  }

  /** The window of a completed read: `born` and `end` are the writes in effect at dispatch and completion. */
  lemma ReadWindow(cfg: Config, ss: seq<Sys>, ls: seq<Label>, d: nat, e: nat, i: nat)
    requires IsRun(cfg, ss, ls) && d < e < |ls| && ss[d].hist.session == ss[e + 1].hist.session
    requires Dispatches(ss[d], ls[d], i)
    requires i < |ss[e].reqs| && ReadInFlight(ss[e].reqs[i].phase)
    requires i < |ss[e + 1].reqs| && ss[e + 1].reqs[i].phase.ReadOk?
    ensures ss[e + 1].reqs[i].phase.born == |ss[d].hist.log| && ss[e + 1].reqs[i].phase.end == |ss[e].hist.log|
    ensures ss[e].hist.session == ss[d].hist.session && ss[e + 1].reqs[i].req == ss[d].reqs[i].req
  {
    RunStory(cfg, ss, ls);
    Across(ss, d, e);
    Across(ss, e, e + 1);
    Within(ss, d, e + 1);
    DispatchBorn(cfg, ss, ls, d, i);
    Within(ss, d + 1, e + 1);
    EndsNow(cfg, ss, ls, e, i);
  }

  /** Step `d` dispatches read `i`, and step `e` of the same session completes it well; `b` is one of its blocks. */
  ghost predicate ReadDone(ss: seq<Sys>, ls: seq<Label>, d: nat, e: nat, i: nat, b: nat) {
    && d < e < |ls| == |ss| - 1 && ss[d].hist.session == ss[e + 1].hist.session
    && Dispatches(ss[d], ls[d], i)
    && ss[d].reqs[i].req.start <= b < ss[d].reqs[i].req.start + ss[d].reqs[i].req.count
    && i < |ss[e].reqs| && ReadInFlight(ss[e].reqs[i].phase)
    && i < |ss[e + 1].reqs| && ss[e + 1].reqs[i].phase.ReadOk?
  }

  /** A successful read returns, for each block, what the bdev held at some moment between dispatch and completion. */
  lemma ReadSeesAnInstant(cfg: Config, ss: seq<Sys>, ls: seq<Label>, d: nat, e: nat, i: nat, b: nat) returns (m: nat)
    requires IsRun(cfg, ss, ls) && Harmless(cfg) && ReadDone(ss, ls, d, e, i, b)
    ensures d <= m <= e && Shape(cfg, ss[m]) && b < cfg.blocks && b in ss[e + 1].reqs[i].phase.got
    ensures Content(cfg, ss[m], b).data == ss[e + 1].reqs[i].phase.got[b].data
  {
    ReadWindow(cfg, ss, ls, d, e, i);
    ReadOkSaw(cfg, ss, ls, e + 1, i, b);
    RunStory(cfg, ss, ls);
    m := FindInstant(ss, d, e, ss[e + 1].reqs[i].phase.got[b].at);
    ContentAt(cfg, ss, ls, m, e + 1, b);
  }
}
