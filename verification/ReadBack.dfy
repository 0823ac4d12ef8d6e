/** Written data is read back: within a session, and after a flush over any number of crashes. */
module ReadBack {
  import opened Types
  import opened Protocol
  import opened Frames
  import opened Order
  import opened Placement
  import opened Durability
  import opened Runs
  import opened History
  import opened Fates
  import opened CopyOnAccess
  import opened CrashSafety

  /** No read without copy_on_read can cross the end of the image. */
  ghost predicate ReadsApart(cfg: Config)
    requires 0 < cfg.stripeBlocks
  {
    cfg.copyOnRead || forall b: nat, t: nat :: !Adjoins(cfg, b, t)
  }

  /** `data` was written to block `b` by the `v`-th block write or a later one. */
  ghost predicate WrittenSince(log: seq<Entry>, b: nat, v: nat, data: Data) {
    exists u: nat :: u < |log| && v <= u + 1 && log[u] == Entry(b, data)
  }

  /** Block `b` is on the base device and holds what the `v`-th block write or a later one put there. */
  ghost predicate AtLeast(cfg: Config, s: Sys, b: nat, v: nat) {
    && Shape(cfg, s) && b < cfg.blocks && Backed(cfg, s.status, b)
    && WrittenSince(s.hist.log, b, v, s.disk.vol[b].data)
  }

  /** A dispatched read that has seen nothing older than the `v`-th block write in block `b`. */
  ghost predicate Fresh(log: seq<Entry>, phase: Phase, b: nat, v: nat) {
    match phase
    case Buffering(_) => true
    case BaseRead(_, _, got) => b in got ==> WrittenSince(log, b, v, got[b].data)
    case ReadOk(_, got, _) => b in got ==> WrittenSince(log, b, v, got[b].data)
    case Error => true
    case _ => false
  }

  // ---------------------------------------------------------------- one step

  lemma FreshLater(log: seq<Entry>, log': seq<Entry>, phase: Phase, b: nat, v: nat)
    requires Fresh(log, phase, b, v) && log <= log'
    ensures Fresh(log', phase, b, v)
  {
    if (phase.BaseRead? || phase.ReadOk?) && b in phase.got {
      var u: nat :| u < |log| && v <= u + 1 && log[u] == Entry(b, phase.got[b].data);
      assert log'[u] == Entry(b, phase.got[b].data);
    }
  }

  /** A read of a block that is on the base device is not sent to the image. */
  lemma NotFromImage(cfg: Config, s: Sys, r: nat, b: nat)
    requires Shape(cfg, s) && Uncopied(cfg, s) && ReadsApart(cfg) && r < |s.reqs| && s.reqs[r].phase.Buffering?
    requires b in Range(s.reqs[r].req) && b < cfg.blocks && Backed(cfg, s.status, b)
    ensures Backed(cfg, s.status, s.reqs[r].req.start)
  {
    var req := s.reqs[r].req;
    assert IoShape(cfg, s.reqs[r], |s.chans|);
    OneStripe(cfg, req, b);
    assert cfg.copyOnRead || !Adjoins(cfg, req.start, b);
  }

  lemma FreshRead(cfg: Config, s: Sys, l: Label, b: nat, v: nat)
    requires Good(cfg, s) && Uncopied(cfg, s) && ReadsApart(cfg) && Enabled(cfg, s, l) && OfRead(l)
    requires AtLeast(cfg, s, b, v) && b in Range(s.reqs[l.i].req) && Fresh(s.hist.log, s.reqs[l.i].phase, b, v)
    ensures |RequestStep(cfg, s, l).reqs| == |s.reqs|
    ensures Fresh(s.hist.log, RequestStep(cfg, s, l).reqs[l.i].phase, b, v)
  {
    if l.GetBuf? {
      NotFromImage(cfg, s, l.i, b);
    }
  }

  lemma FreshStep(cfg: Config, s: Sys, l: Label, r: nat, b: nat, v: nat)
    requires Good(cfg, s) && Uncopied(cfg, s) && ReadsApart(cfg) && Enabled(cfg, s, l) && !l.Crash? && r < |s.reqs|
    requires AtLeast(cfg, s, b, v) && b in Range(s.reqs[r].req) && Fresh(s.hist.log, s.reqs[r].phase, b, v)
    ensures r < |Step(cfg, s, l).reqs| && Step(cfg, s, l).reqs[r].req == s.reqs[r].req
    ensures Fresh(Step(cfg, s, l).hist.log, Step(cfg, s, l).reqs[r].phase, b, v)
  {
    FollowsStep(cfg, s, l);
    OnlyConcerned(cfg, s, l, r);
    if Concerns(s, l, r) {
      ConcernedPhase(cfg, s, l, r);
      StepIsRequest(cfg, s, l);
      FreshRead(cfg, s, l, b, v);
      FreshLater(s.hist.log, Step(cfg, s, l).hist.log, Step(cfg, s, l).reqs[r].phase, b, v);
    } else {
      FreshLater(s.hist.log, Step(cfg, s, l).hist.log, s.reqs[r].phase, b, v);
    }
  }

  // ---------------------------------------------------------------- a whole read

  lemma NoCrash(cfg: Config, ss: seq<Sys>, ls: seq<Label>, d: nat, n: nat, e: nat)
    requires IsRun(cfg, ss, ls) && d <= n < e < |ss| && ss[d].hist.session == ss[e].hist.session
    ensures !ls[n].Crash?
  {
    RunStory(cfg, ss, ls);
    Across(ss, d, n);
    Across(ss, n + 1, e);
    if ls[n].Crash? {
      CrashCounts(cfg, ss, ls, n);
    }
  }

  lemma CrashCounts(cfg: Config, ss: seq<Sys>, ls: seq<Label>, n: nat)
    requires IsRun(cfg, ss, ls) && n < |ls| && ls[n].Crash?
    ensures ss[n + 1].hist.session == ss[n].hist.session + 1
  {
    assert Goes(cfg, ss, ls, n);
  }

  /** If request `r` is fresh in `s`, it still is in `t`. */
  ghost predicate Carries(s: Sys, t: Sys, r: nat, b: nat, v: nat) {
    r < |s.reqs| && b in Range(s.reqs[r].req) && Fresh(s.hist.log, s.reqs[r].phase, b, v) ==>
      r < |t.reqs| && t.reqs[r].req == s.reqs[r].req && Fresh(t.hist.log, t.reqs[r].phase, b, v)
  }

  lemma {:induction false} CarriedOn(ss: seq<Sys>, m: nat, n: nat, r: nat, b: nat, v: nat)
    requires m <= n < |ss| && forall k | m <= k < n :: Carries(ss[k], ss[k + 1], r, b, v)
    ensures Carries(ss[m], ss[n], r, b, v)
    decreases n
  {
    if m == n {
    } else {
      CarriedOn(ss, m, n - 1, r, b, v);
      assert Carries(ss[n - 1], ss[n], r, b, v);
    }
  }

  lemma CarriesStep(cfg: Config, ss: seq<Sys>, ls: seq<Label>, n: nat, r: nat, b: nat, v: nat)
    requires IsRun(cfg, ss, ls) && ReadsApart(cfg) && n < |ls| && !ls[n].Crash? && AtLeast(cfg, ss[n], b, v)
    ensures Carries(ss[n], ss[n + 1], r, b, v)
  {
    RunSound(cfg, ss, ls, n);
    RunUncopied(cfg, ss, ls, n);
    if r < |ss[n].reqs| && b in Range(ss[n].reqs[r].req) && Fresh(ss[n].hist.log, ss[n].reqs[r].phase, b, v) {
      assert Goes(cfg, ss, ls, n);
      FreshStep(cfg, ss[n], ls[n], r, b, v);
    }
  }

  lemma ReadFresh(cfg: Config, ss: seq<Sys>, ls: seq<Label>, d: nat, e: nat, r: nat, b: nat, v: nat)
    requires IsRun(cfg, ss, ls) && ReadsApart(cfg) && ReadDone(ss, ls, d, e, r, b)
    requires forall m | d <= m <= e :: AtLeast(cfg, ss[m], b, v)
    ensures Fresh(ss[e + 1].hist.log, ss[e + 1].reqs[r].phase, b, v)
  {
    DispatchBorn(cfg, ss, ls, d, r);
    SameSession(cfg, ss, ls, d, d + 1, e + 1);
    SameRequest(cfg, ss, ls, d, d + 1, r);
    forall k | d + 1 <= k < e + 1
      ensures Carries(ss[k], ss[k + 1], r, b, v)
    {
      NoCrash(cfg, ss, ls, d, k, e + 1);
      CarriesStep(cfg, ss, ls, k, r, b, v);
    }
    CarriedOn(ss, d + 1, e + 1, r, b, v);
  }

  lemma SameRequest(cfg: Config, ss: seq<Sys>, ls: seq<Label>, m: nat, n: nat, r: nat)
    requires IsRun(cfg, ss, ls) && m <= n < |ss| && ss[m].hist.session == ss[n].hist.session && r < |ss[m].reqs|
    ensures r < |ss[n].reqs| && ss[n].reqs[r].req == ss[m].reqs[r].req
  {
    RunStory(cfg, ss, ls);
    Within(ss, m, n);
  }

  lemma SameSession(cfg: Config, ss: seq<Sys>, ls: seq<Label>, d: nat, n: nat, e: nat)
    requires IsRun(cfg, ss, ls) && d <= n <= e < |ss| && ss[d].hist.session == ss[e].hist.session
    ensures ss[n].hist.session == ss[d].hist.session
  {
    RunStory(cfg, ss, ls);
    Across(ss, d, n);
    Across(ss, n, e);
  }

  /** If a block holds at least the `v`-th block write while it is read, the read returns that or later data. */
  lemma ReadsAtLeast(cfg: Config, ss: seq<Sys>, ls: seq<Label>, d: nat, e: nat, r: nat, b: nat, v: nat)
    requires IsRun(cfg, ss, ls) && ReadsApart(cfg) && ReadDone(ss, ls, d, e, r, b)
    requires forall m | d <= m <= e :: AtLeast(cfg, ss[m], b, v)
    ensures b in ss[e + 1].reqs[r].phase.got
    ensures WrittenSince(ss[e + 1].hist.log, b, v, ss[e + 1].reqs[r].phase.got[b].data)
  {
    ReadFresh(cfg, ss, ls, d, e, r, b, v);
    SameRequest(cfg, ss, ls, d, e + 1, r);
    GotAll(cfg, ss, ls, e + 1, r);
  }

  lemma GotAll(cfg: Config, ss: seq<Sys>, ls: seq<Label>, n: nat, r: nat)
    requires IsRun(cfg, ss, ls) && n < |ss| && r < |ss[n].reqs| && ss[n].reqs[r].phase.ReadOk?
    ensures ss[n].reqs[r].phase.got.Keys == Range(ss[n].reqs[r].req)
  {
    RunSound(cfg, ss, ls, n);
    assert IoShape(cfg, ss[n].reqs[r], |ss[n].chans|);
  }

  // ---------------------------------------------------------------- after a flush

  lemma FloorAtLeast(cfg: Config, ss: seq<Sys>, ls: seq<Label>, n: nat, b: nat, v: nat)
    requires IsRun(cfg, ss, ls) && TailApart(cfg) && n < |ss| && b < cfg.blocks == |ss[n].hist.floor|
    requires 0 < v <= ss[n].hist.floor[b]
    ensures AtLeast(cfg, ss[n], b, v)
  {
    RunDurable(cfg, ss, ls, n);
    LastingBacked(cfg, ss[n], b);
    HonestSince(cfg, ss[n], b, v);
  }

  lemma HonestSince(cfg: Config, s: Sys, b: nat, v: nat)
    requires Shape(cfg, s) && Keeping(cfg, s) && b < cfg.blocks && 0 < v <= s.disk.vol[b].ver
    ensures WrittenSince(s.hist.log, b, v, s.disk.vol[b].data)
  {
    assert Honest(cfg, s.hist.log, b, s.disk.vol[b]);
    var u: nat := s.disk.vol[b].ver - 1;
    assert s.hist.log[u] == Entry(b, s.disk.vol[b].data);
  }

  /**
   A write of block `b` completed, and then a flush that covers `b` was submitted and succeeded. Whatever crashes
   come after that, a read of the block dispatched at step `d`, in whichever session, and completed well at step
   `e` returns the data of that write or of a later write to the block.
   */
  lemma FlushedReadBack(cfg: Config, ss: seq<Sys>, ls: seq<Label>, i: nat, w: nat, j: nat, k: nat, b: nat,
                        d: nat, e: nat, r: nat)
    requires IsRun(cfg, ss, ls) && TailApart(cfg) && ReadsApart(cfg) && Flushed(ss, ls, i, w, j, k, b)
    requires k <= d && ReadDone(ss, ls, d, e, r, b)
    ensures IsWriteOf(ss[i], w, b, ss[e + 1].hist.log, ss[i].reqs[w].phase.vers[b])
    ensures b in ss[e + 1].reqs[r].phase.got
    ensures WrittenSince(ss[e + 1].hist.log, b, ss[i].reqs[w].phase.vers[b], ss[e + 1].reqs[r].phase.got[b].data)
  {
    var v := ss[i].reqs[w].phase.vers[b];
    forall m | d <= m <= e
      ensures AtLeast(cfg, ss[m], b, v)
    {
      FlushedFloor(cfg, ss, ls, i, w, j, k, m, b);
      FloorAtLeast(cfg, ss, ls, m, b, v);
    }
    FlushedFloor(cfg, ss, ls, i, w, j, k, e + 1, b);
    ReadsAtLeast(cfg, ss, ls, d, e, r, b, v);
  }

  // ---------------------------------------------------------------- within a session

  lemma WroteAtLeast(cfg: Config, ss: seq<Sys>, ls: seq<Label>, i: nat, w: nat, n: nat, b: nat)
    requires IsRun(cfg, ss, ls) && TailApart(cfg) && i <= n < |ss| && Wrote(ss[i], w, b)
    requires ss[i].hist.session == ss[n].hist.session
    ensures AtLeast(cfg, ss[n], b, ss[i].reqs[w].phase.vers[b])
    ensures IsWriteOf(ss[i], w, b, ss[n].hist.log, ss[i].reqs[w].phase.vers[b])
  {
    RunStory(cfg, ss, ls);
    Within(ss, i, n);
    WriteKept(cfg, ss, ls, n, w, b);
    RunDurable(cfg, ss, ls, n);
    HonestSince(cfg, ss[n], b, ss[i].reqs[w].phase.vers[b]);
  }

  /**
   A write of block `b` completed. A read of the block dispatched after that in the same session and completed
   well returns the data of that write or of a later write to the block.
   */
  lemma WrittenReadBack(cfg: Config, ss: seq<Sys>, ls: seq<Label>, i: nat, w: nat, b: nat, d: nat, e: nat, r: nat)
    requires IsRun(cfg, ss, ls) && TailApart(cfg) && ReadsApart(cfg) && i < |ss| && Wrote(ss[i], w, b)
    requires i <= d && ReadDone(ss, ls, d, e, r, b) && ss[i].hist.session == ss[d].hist.session
    ensures IsWriteOf(ss[i], w, b, ss[e + 1].hist.log, ss[i].reqs[w].phase.vers[b])
    ensures b in ss[e + 1].reqs[r].phase.got
    ensures WrittenSince(ss[e + 1].hist.log, b, ss[i].reqs[w].phase.vers[b], ss[e + 1].reqs[r].phase.got[b].data)
  {
    var v := ss[i].reqs[w].phase.vers[b];
    forall m | d <= m <= e
      ensures AtLeast(cfg, ss[m], b, v)
    {
      SameSession(cfg, ss, ls, d, m, e + 1);
      WroteAtLeast(cfg, ss, ls, i, w, m, b);
    }
    WroteAtLeast(cfg, ss, ls, i, w, e + 1, b);
    ReadsAtLeast(cfg, ss, ls, d, e, r, b, v);
  }
}
