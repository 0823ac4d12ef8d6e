/** Which blocks a request writes and reads, by number: block `k` of a request is block `start + k` of the device. */
module Blocks {
  import opened Types
  import opened Protocol
  import opened Frames
  import opened Order
  import opened Runs
  import opened History
  import opened CopyOnAccess

  /** Block write `v` is that of block `b` by `req`. */
  ghost predicate LoggedAs(log: seq<Entry>, req: Request, b: nat, v: nat) {
    && req.start <= b < req.start + req.count == req.start + |req.data|
    && 0 < v <= |log| && log[v - 1] == Entry(b, req.data[b - req.start])
  }

  /** Every block that a write has recorded is logged with that block's data. */
  ghost predicate Logged(log: seq<Entry>, io: Io) {
    io.phase.Writing? || io.phase.WriteOk? ==>
      forall b | b in io.phase.vers :: LoggedAs(log, io.req, b, io.phase.vers[b])
  }

  ghost predicate AllLogged(s: Sys) {
    forall i | 0 <= i < |s.reqs| :: Logged(s.hist.log, s.reqs[i])
  }

  // ---------------------------------------------------------------- every step

  lemma LoggedLater(log: seq<Entry>, log': seq<Entry>, io: Io)
    requires Logged(log, io) && log <= log'
    ensures Logged(log', io)
  {
  }

  lemma FlushNotWriting(cfg: Config, s: Sys, l: Label)
    requires Shape(cfg, s) && Enabled(cfg, s, l) && OfFlush(l)
    ensures |FlushStep(cfg, s, l).reqs| == |s.reqs|
    ensures var p := FlushStep(cfg, s, l).reqs[l.i].phase; !p.Writing? && !p.WriteOk?
  {
  }

  lemma WriteLogged(cfg: Config, s: Sys, l: Label)
    requires Shape(cfg, s) && Enabled(cfg, s, l) && OfWrite(l) && Logged(s.hist.log, s.reqs[l.i])
    ensures |RequestStep(cfg, s, l).reqs| == |s.reqs|
    ensures Logged(RequestStep(cfg, s, l).hist.log, RequestStep(cfg, s, l).reqs[l.i])
  {
    assert IoShape(cfg, s.reqs[l.i], |s.chans|);
    if l.WriteApply? {
      ApplyLogged(cfg, s, l.i, l.b);
    }
  }

  lemma ApplyLogged(cfg: Config, s: Sys, i: nat, b: nat)
    requires i < |s.reqs| && s.reqs[i].phase.Writing? && b < |s.disk.vol| == |s.disk.dur|
    requires b in Range(s.reqs[i].req) && s.reqs[i].req.count == |s.reqs[i].req.data| && Logged(s.hist.log, s.reqs[i])
    ensures Logged(WriteApplyStep(cfg, s, i, b).hist.log, WriteApplyStep(cfg, s, i, b).reqs[i])
  {
    var t, io := WriteApplyStep(cfg, s, i, b), s.reqs[i];
    LoggedLater(s.hist.log, t.hist.log, io);
    assert LoggedAs(t.hist.log, io.req, b, |s.hist.log| + 1);
  }

  /** What a step makes of the request it is about. */
  lemma ConcernedLogged(cfg: Config, s: Sys, l: Label, i: nat)
    requires Good(cfg, s) && Enabled(cfg, s, l) && !l.Crash? && Concerns(s, l, i) && i < |s.reqs|
    requires Logged(s.hist.log, s.reqs[i])
    ensures i < |Step(cfg, s, l).reqs| && Logged(Step(cfg, s, l).hist.log, Step(cfg, s, l).reqs[i])
  {
    if l.Reject? || l.Bug? || l.Serve? {
      PopPhase(cfg, s, l);
    } else if OfFlush(l) {
      StepIsFlush(cfg, s, l);
      FlushNotWriting(cfg, s, l);
    } else {
      StepIsRequest(cfg, s, l);
      if OfRead(l) {
        ReadStays(cfg, s, l);
      } else {
        WriteLogged(cfg, s, l);
      }
    }
  }

  lemma LoggedStep(cfg: Config, s: Sys, l: Label)
    requires Good(cfg, s) && AllLogged(s) && Enabled(cfg, s, l) && !l.Crash?
    ensures AllLogged(Step(cfg, s, l))
  {
    var t := Step(cfg, s, l);
    LogStep(cfg, s, l);
    forall i | 0 <= i < |t.reqs|
      ensures Logged(t.hist.log, t.reqs[i])
    {
      if i >= |s.reqs| {
        NewWaits(cfg, s, l, i);
      } else {
        OnlyConcerned(cfg, s, l, i);
        if Concerns(s, l, i) {
          ConcernedLogged(cfg, s, l, i);
        } else {
          LoggedLater(s.hist.log, t.hist.log, s.reqs[i]);
        }
      }
    }
  }

  lemma NewWaits(cfg: Config, s: Sys, l: Label, i: nat)
    requires Good(cfg, s) && Enabled(cfg, s, l) && !l.Crash? && |s.reqs| <= i < |Step(cfg, s, l).reqs|
    ensures Step(cfg, s, l).reqs[i].phase.Waiting? || Step(cfg, s, l).reqs[i].phase.Error?
  {
    if OfFetch(l) {
      AdvancesSlot(cfg, s, l);
    } else if l.Reject? || l.Bug? || l.Serve? {
      PopsHead(cfg, s, l);
    } else if OfRead(l) || OfWrite(l) || OfFlush(l) {
      TouchesOne(cfg, s, l);
    } else if l.Ring? {
      RingsOnly(cfg, s, l);
    }
  }

  lemma {:induction false} RunLogged(cfg: Config, ss: seq<Sys>, ls: seq<Label>, n: nat)
    requires IsRun(cfg, ss, ls) && n < |ss|
    ensures AllLogged(ss[n])
  {
    if n == 0 {
    } else {
      RunLogged(cfg, ss, ls, n - 1);
      RunSound(cfg, ss, ls, n - 1);
      assert Goes(cfg, ss, ls, n - 1);
      if !ls[n - 1].Crash? {
        LoggedStep(cfg, ss[n - 1], ls[n - 1]);
      } else {
        CrashForgets(cfg, ss[n - 1]);
      }
    }
  }

  lemma CrashForgets(cfg: Config, s: Sys)
    requires Shape(cfg, s) && Enabled(cfg, s, Crash)
    ensures Step(cfg, s, Crash).reqs == []
  {
  }

  // ---------------------------------------------------------------- completed requests

  lemma InRange(req: Request, b: nat)
    ensures b in Range(req) <==> req.start <= b < req.start + req.count
  {
  }

  /** A completed write has written each of its blocks and no other, each with the data meant for it. */
  lemma WriteIsWhole(cfg: Config, ss: seq<Sys>, ls: seq<Label>, n: nat, w: nat, b: nat)
    requires IsRun(cfg, ss, ls) && n < |ss| && w < |ss[n].reqs| && ss[n].reqs[w].phase.WriteOk?
    ensures var req, vers, log := ss[n].reqs[w].req, ss[n].reqs[w].phase.vers, ss[n].hist.log;
            && req.kind == Write && |req.data| == req.count
            && (b in vers <==> req.start <= b < req.start + req.count)
            && (b in vers ==> 0 < vers[b] <= |log| && log[vers[b] - 1] == Entry(b, req.data[b - req.start]))
  {
    RunSound(cfg, ss, ls, n);
    RunLogged(cfg, ss, ls, n);
    var io := ss[n].reqs[w];
    assert IoShape(cfg, io, |ss[n].chans|) && Logged(ss[n].hist.log, io);
    InRange(io.req, b);
    if b in io.phase.vers {
      assert LoggedAs(ss[n].hist.log, io.req, b, io.phase.vers[b]);
    }
  }

  /** A successful read has returned each of its blocks and no other. */
  lemma ReadIsWhole(cfg: Config, ss: seq<Sys>, ls: seq<Label>, n: nat, r: nat, b: nat)
    requires IsRun(cfg, ss, ls) && n < |ss| && r < |ss[n].reqs| && ss[n].reqs[r].phase.ReadOk?
    ensures var req, got := ss[n].reqs[r].req, ss[n].reqs[r].phase.got;
            req.kind == Read && (b in got <==> req.start <= b < req.start + req.count)
  {
    RunSound(cfg, ss, ls, n);
    assert IoShape(cfg, ss[n].reqs[r], |ss[n].chans|);
    InRange(ss[n].reqs[r].req, b);
  }
}
