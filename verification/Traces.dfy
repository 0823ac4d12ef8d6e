/** What one call of the poller, a callback or a submission amounts to: a series of steps from a reachable state. */
module Traces {
  import opened Types
  import opened Protocol
  import opened Frames
  import opened Runs

  ghost predicate Via(cfg: Config, us: seq<Sys>, s: Sys, ls: seq<Label>, t: Sys) {
    AllGo(cfg, us, ls) && us[0] == s && us[|ls|] == t
  }

  /** The steps `ls` lead from `s` to `t`. */
  ghost predicate Path(cfg: Config, s: Sys, ls: seq<Label>, t: Sys) {
    exists us :: Via(cfg, us, s, ls, t)
  }

  lemma PathGrows(cfg: Config, s: Sys, ls: seq<Label>, u: Sys, l: Label)
    requires Path(cfg, s, ls, u) && Shape(cfg, u) && Enabled(cfg, u, l)
    ensures Path(cfg, s, ls + [l], Step(cfg, u, l))
  {
    var us :| Via(cfg, us, s, ls, u);
    OneGoes(cfg, u, l);
    Joined(cfg, us, ls, [u, Step(cfg, u, l)], [l]);
    assert Via(cfg, us + [u, Step(cfg, u, l)][1..], s, ls + [l], Step(cfg, u, l));
  }

  /** A run goes on along a path from its last state. */
  lemma RunTook(cfg: Config, ss: seq<Sys>, ls: seq<Label>, ms: seq<Label>, t: Sys) returns (ss': seq<Sys>)
    requires IsRun(cfg, ss, ls) && Path(cfg, ss[|ls|], ms, t)
    ensures IsRun(cfg, ss', ls + ms) && ss <= ss' && ss'[|ls| + |ms|] == t
  {
    var us :| Via(cfg, us, ss[|ls|], ms, t);
    Joined(cfg, ss, ls, us, ms);
    ss' := ss + us[1..];
  }

  /** A reachable state stays one along a path, so what holds of whole runs holds after every call. */
  lemma PathReaches(cfg: Config, s: Sys, ls: seq<Label>, t: Sys)
    requires Reachable(cfg, s) && Path(cfg, s, ls, t)
    ensures Reachable(cfg, t)
  {
    var ss, ms :| IsRun(cfg, ss, ms) && ss[|ms|] == s;
    var ss' := RunTook(cfg, ss, ms, ls, t);
    assert ss'[|ms + ls|] == t;
  }

  /** The steps `ls` lead from `s` to the reachable state `t`. */
  ghost predicate Took(cfg: Config, s: Sys, ls: seq<Label>, t: Sys) {
    Path(cfg, s, ls, t) && Reachable(cfg, t) && Shape(cfg, t)
  }

  lemma TookOne(cfg: Config, s: Sys, ls: seq<Label>, u: Sys, l: Label)
    requires Took(cfg, s, ls, u) && Enabled(cfg, u, l)
    ensures Took(cfg, s, ls + [l], Step(cfg, u, l))
  {
    PathGrows(cfg, s, ls, u, l);
    ReachableStep(cfg, u, l);
  }

  lemma TookNone(cfg: Config, s: Sys)
    requires Reachable(cfg, s) && Shape(cfg, s)
    ensures Took(cfg, s, [], s)
  {
    assert Via(cfg, [s], s, [], s);
  }

  /** One step alone. */
  lemma TookFirst(cfg: Config, s: Sys, l: Label)
    requires Reachable(cfg, s) && Shape(cfg, s) && Enabled(cfg, s, l)
    ensures Took(cfg, s, [l], Step(cfg, s, l))
  {
    TookNone(cfg, s);
    TookOne(cfg, s, [], s, l);
    assert [] + [l] == [l];
  }

  // ---------------------------------------------------------------- one lemma per kind of step

  lemma TookSubmit(cfg: Config, s: Sys, c: nat, req: Request)
    requires Reachable(cfg, s) && Shape(cfg, s) && c < |s.chans| && RequestOk(cfg, req)
    ensures Took(cfg, s, [Submit(c, req)], SubmitStep(cfg, s, c, req))
  {
    TookFirst(cfg, s, Submit(c, req));
  }

  lemma TookSubmitNext(cfg: Config, s: Sys, ls: seq<Label>, u: Sys, c: nat, req: Request)
    requires Took(cfg, s, ls, u) && c < |u.chans| && RequestOk(cfg, req)
    ensures Took(cfg, s, ls + [Submit(c, req)], SubmitStep(cfg, u, c, req))
  {
    TookOne(cfg, s, ls, u, Submit(c, req));
  }

  lemma TookStart(cfg: Config, s: Sys, ls: seq<Label>, u: Sys, c: nat, k: nat)
    requires Took(cfg, s, ls, u)
    requires InSlot(u, c, k) && u.chans[c].queue != [] && u.chans[c].slots[k] == Free
    ensures Took(cfg, s, ls + [StartFetch(c, k)], StartFetchStep(u, c, k))
  {
    TookOne(cfg, s, ls, u, StartFetch(c, k));
  }

  lemma TookFetchRead(cfg: Config, s: Sys, ls: seq<Label>, u: Sys, c: nat, k: nat, readOk: bool, accepted: bool)
    requires Took(cfg, s, ls, u)
    requires InSlot(u, c, k) && u.chans[c].slots[k].Reading? && (accepted ==> Fits(cfg, u.chans[c].slots[k].stripe))
    ensures Took(cfg, s, ls + [FetchRead(c, k, readOk, accepted)], FetchReadStep(cfg, u, c, k, readOk && accepted))
  {
    TookOne(cfg, s, ls, u, FetchRead(c, k, readOk, accepted));
  }

  lemma TookImageRead(cfg: Config, s: Sys, ls: seq<Label>, u: Sys, i: nat, ok: bool, junk: Data)
    requires Took(cfg, s, ls, u) && i < |u.reqs| && u.reqs[i].phase.ImageRead?
    requires i !in u.chans[u.reqs[i].chan].prepared
    ensures Took(cfg, s, ls + [ImageReadDone(i, ok, junk)], ImageReadDoneStep(cfg, u, i, ok, junk))
  {
    TookOne(cfg, s, ls, u, ImageReadDone(i, ok, junk));
  }

  lemma TookReject(cfg: Config, s: Sys, ls: seq<Label>, u: Sys, c: nat)
    requires Took(cfg, s, ls, u) && HeadIs(cfg, u, c, Refused)
    ensures Took(cfg, s, ls + [Reject(c)], RejectStep(u, c))
  {
    TookOne(cfg, s, ls, u, Reject(c));
  }

  lemma TookServe(cfg: Config, s: Sys, ls: seq<Label>, u: Sys, c: nat, accepted: bool)
    requires Took(cfg, s, ls, u) && HeadIs(cfg, u, c, Servable)
    ensures Took(cfg, s, ls + [Serve(c, accepted)], ServeStep(cfg, u, c, accepted))
  {
    TookOne(cfg, s, ls, u, Serve(c, accepted));
  }

  lemma TookFlushBlock(cfg: Config, s: Sys, ls: seq<Label>, u: Sys, i: nat, b: nat)
    requires Took(cfg, s, ls, u) && i < |u.reqs| && u.reqs[i].phase.DataFlush? && b in u.reqs[i].phase.pending
    ensures b < |u.disk.vol| == |u.disk.dur|
    ensures Took(cfg, s, ls + [FlushBlock(i, b)], FlushBlockStep(u, i, b))
  {
    assert IoShape(cfg, u.reqs[i], |u.chans|);
    TookOne(cfg, s, ls, u, FlushBlock(i, b));
    StepIsFlush(cfg, u, FlushBlock(i, b));
  }

  lemma TookDestage(cfg: Config, s: Sys, ls: seq<Label>, u: Sys, b: nat)
    requires Took(cfg, s, ls, u) && b < cfg.blocks
    ensures b < |u.disk.vol| == |u.disk.dur|
    ensures Took(cfg, s, ls + [Destage(b)], u.(disk := Settled(u.disk, b)))
  {
    TookOne(cfg, s, ls, u, Destage(b));
    StepIsDevice(cfg, u, Destage(b));
  }

  lemma TookFetchDone(cfg: Config, s: Sys, c: nat, k: nat)
    requires Reachable(cfg, s) && Shape(cfg, s) && Enabled(cfg, s, FetchDone(c, k))
    ensures s.chans[c].slots[k].stripe < MAX_STRIPES && Took(cfg, s, [FetchDone(c, k)], FetchDoneStep(s, c, k))
  {
    assert SlotShape(cfg, s.chans[c].slots[k]);
    TookFirst(cfg, s, FetchDone(c, k));
  }

  lemma TookBaseReadDone(cfg: Config, s: Sys, i: nat, ok: bool)
    requires Reachable(cfg, s) && Shape(cfg, s) && Enabled(cfg, s, BaseReadDone(i, ok))
    ensures Took(cfg, s, [BaseReadDone(i, ok)], BaseReadDoneStep(s, i, ok))
  {
    TookFirst(cfg, s, BaseReadDone(i, ok));
  }

  lemma TookWriteDone(cfg: Config, s: Sys, i: nat, ok: bool)
    requires Reachable(cfg, s) && Shape(cfg, s) && Enabled(cfg, s, WriteDone(i, ok))
    ensures Took(cfg, s, [WriteDone(i, ok)], WriteDoneStep(s, i, ok))
  {
    TookFirst(cfg, s, WriteDone(i, ok));
  }

  lemma TookGetBuf(cfg: Config, s: Sys, ls: seq<Label>, u: Sys, i: nat, ok: bool, accepted: bool)
    requires Took(cfg, s, ls, u) && i < |u.reqs| && u.reqs[i].phase.Buffering?
    ensures Took(cfg, s, ls + [GetBuf(i, ok, accepted)], GetBufStep(cfg, u, i, ok, accepted))
  {
    TookOne(cfg, s, ls, u, GetBuf(i, ok, accepted));
  }

  lemma TookRing(cfg: Config, s: Sys, ls: seq<Label>, u: Sys, c: nat, ok: bool)
    requires Took(cfg, s, ls, u) && c < |u.chans| && Began(u.chans[c])
    requires u.chans[c].polling || u.chans[c].prepared != {}
    ensures Took(cfg, s, ls + [Ring(c, ok)], RingStep(u, c, ok))
  {
    TookOne(cfg, s, ls, u, Ring(c, ok));
  }

  lemma ReachableShape(cfg: Config, s: Sys)
    requires Reachable(cfg, s)
    ensures Shape(cfg, s)
  {
    ReachableSound(cfg, s);
  }

  /** No series of steps from a reachable state takes the branch for a request whose stripe nobody asked for. */
  lemma NoBug(cfg: Config, s: Sys, ls: seq<Label>, t: Sys)
    requires Reachable(cfg, s) && Path(cfg, s, ls, t)
    ensures forall j | 0 <= j < |ls| :: !ls[j].Bug?
  {
    var ss, ms :| IsRun(cfg, ss, ms) && ss[|ms|] == s;
    var ss' := RunTook(cfg, ss, ms, ls, t);
    forall j | 0 <= j < |ls|
      ensures !ls[j].Bug?
    {
      BugBranchUnreachable(cfg, ss', ms + ls, |ms| + j);
    }
  }
}
