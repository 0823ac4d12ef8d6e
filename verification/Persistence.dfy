/** Exactly which configurations keep flushed writes and read written data back. */
module Persistence {
  import opened Types
  import opened Protocol
  import opened Frames
  import opened Order
  import opened Placement
  import opened Runs
  import opened History
  import opened CopyOnAccess
  import opened CrashSafety
  import opened ReadBack
  import opened Traces
  import opened Scenarios
  import opened Limits
  import opened Overwrites

  // ---------------------------------------------------------------- the conditions, in a caller's terms

  /** The image ends inside a stripe and inside the device. */
  predicate EndsWithin(cfg: Config)
    requires 0 < cfg.stripeBlocks
  {
    |cfg.image| % cfg.stripeBlocks != 0 && |cfg.image| < cfg.blocks
  }

  lemma AdjoinsAtEnd(cfg: Config)
    requires ConfigOk(cfg)
    ensures EndsWithin(cfg) <==> exists b: nat, t: nat :: Adjoins(cfg, b, t)
    ensures forall b: nat, t: nat | Adjoins(cfg, b, t) :: Stripe(cfg, b) == |cfg.image| / cfg.stripeBlocks
  {
    var n, d := |cfg.image|, cfg.stripeBlocks;
    if EndsWithin(cfg) {
      LastBlockShares(n, d);
      assert Adjoins(cfg, n - 1, n);
    }
    forall b: nat, t: nat | Adjoins(cfg, b, t)
      ensures EndsWithin(cfg) && Stripe(cfg, b) == n / d
    {
      SameStripe(b, t, d);
      AlignedStartsStripe(b, n, d);
    }
  }

  /** What the two conditions mean: where the image ends, whether the stripe there fits, and copy_on_read. */
  lemma ApartMeans(cfg: Config)
    requires ConfigOk(cfg)
    ensures TailApart(cfg) <==>
            !EndsWithin(cfg) || (|cfg.image| / cfg.stripeBlocks + 1) * cfg.stripeBlocks > cfg.blocks
    ensures ReadsApart(cfg) <==> !EndsWithin(cfg) || cfg.copyOnRead
  {
    AdjoinsAtEnd(cfg);
    if EndsWithin(cfg) && TailApart(cfg) {
      var b: nat, t: nat :| Adjoins(cfg, b, t);
    }
  }

  // ---------------------------------------------------------------- flushes that are ignored

  /** No flush is under way, and none has reached the base device. */
  ghost predicate Unsynced(s: Sys) {
    forall i | 0 <= i < |s.reqs| :: !Syncs(s.reqs[i].phase) && !s.reqs[i].phase.FlushOk?
  }

  lemma UnsyncedPop(cfg: Config, s: Sys, l: Label)
    requires Good(cfg, s) && Unsynced(s) && cfg.noSync && Enabled(cfg, s, l) && (l.Reject? || l.Bug? || l.Serve?)
    ensures Unsynced(Step(cfg, s, l))
  {
    PopsHead(cfg, s, l);
    PopPhase(cfg, s, l);
  }

  lemma UnsyncedRead(cfg: Config, s: Sys, l: Label)
    requires Good(cfg, s) && Unsynced(s) && Enabled(cfg, s, l) && OfRead(l)
    ensures Unsynced(RequestStep(cfg, s, l))
  {
    TouchesRead(cfg, s, l);
    ReadStays(cfg, s, l);
  }

  lemma UnsyncedWrite(cfg: Config, s: Sys, l: Label)
    requires Good(cfg, s) && Unsynced(s) && Enabled(cfg, s, l) && OfWrite(l)
    ensures Unsynced(RequestStep(cfg, s, l))
  {
    TouchesWrite(cfg, s, l);
  }

  lemma UnsyncedStep(cfg: Config, s: Sys, l: Label)
    requires Good(cfg, s) && Unsynced(s) && cfg.noSync && Enabled(cfg, s, l)
    ensures Unsynced(Step(cfg, s, l))
  {
    if OfFetch(l) {
      AdvancesSlot(cfg, s, l);
    } else if l.Reject? || l.Bug? || l.Serve? {
      UnsyncedPop(cfg, s, l);
    } else if OfRead(l) {
      StepIsRequest(cfg, s, l);
      UnsyncedRead(cfg, s, l);
    } else if OfWrite(l) {
      StepIsRequest(cfg, s, l);
      UnsyncedWrite(cfg, s, l);
    } else if OfFlush(l) {
      TouchedPhase(cfg, s, l);
      assert false;
    } else if l.Ring? {
      RingsOnly(cfg, s, l);
    }
  }

  /** With flushes ignored, none ever succeeds on the base device. */
  lemma {:induction false} RunUnsynced(cfg: Config, ss: seq<Sys>, ls: seq<Label>, n: nat)
    requires IsRun(cfg, ss, ls) && cfg.noSync && n < |ss|
    ensures Unsynced(ss[n])
  {
    if n == 0 {
    } else {
      RunUnsynced(cfg, ss, ls, n - 1);
      RunSound(cfg, ss, ls, n - 1);
      assert Goes(cfg, ss, ls, n - 1);
      UnsyncedStep(cfg, ss[n - 1], ls[n - 1]);
    }
  }

  // ---------------------------------------------------------------- flushed writes

  /** A crash at moment `m` shows block `b` as write `w` left it, or as a later write did. */
  ghost predicate Survives(cfg: Config, s: Sys, w: nat, b: nat, t: Sys)
    requires Wrote(s, w, b)
  {
    && Shape(cfg, t) && b < cfg.blocks
    && WrittenSince(t.hist.log, b, s.reqs[w].phase.vers[b], Recovered(cfg, t.disk, b).data)
  }

  /** Every flushed write survives every crash. */
  ghost predicate KeepsFlushed(cfg: Config) {
    forall ss, ls, i: nat, w: nat, j: nat, k: nat, b: nat, m: nat
      | IsRun(cfg, ss, ls) && Flushed(ss, ls, i, w, j, k, b) && k <= m < |ss| :: Survives(cfg, ss[i], w, b, ss[m])
  }

  lemma FlushedSurvives(cfg: Config, ss: seq<Sys>, ls: seq<Label>, i: nat, w: nat, j: nat, k: nat, b: nat, m: nat)
    requires IsRun(cfg, ss, ls) && (cfg.noSync || TailApart(cfg)) && Flushed(ss, ls, i, w, j, k, b) && k <= m < |ss|
    ensures Survives(cfg, ss[i], w, b, ss[m])
  {
    if cfg.noSync {
      RunUnsynced(cfg, ss, ls, k);
      assert false;
    }
    FlushSurvivesCrashes(cfg, ss, ls, i, w, j, k, m, b);
    var u: nat := Recovered(cfg, ss[m].disk, b).ver - 1;
    assert ss[m].hist.log[u] == Entry(b, Recovered(cfg, ss[m].disk, b).data);
  }

  /** A run in which a write of block `t` past the image is acknowledged. */
  lemma AcknowledgedRun(cfg: Config, t: nat, data: Data) returns (ss: seq<Sys>, ls: seq<Label>)
    requires ConfigOk(cfg) && |cfg.image| <= t < cfg.blocks
    ensures IsRun(cfg, ss, ls) && AtRest(cfg, ss[|ls|], [], t, data)
    ensures Wrote(ss[|ls|], 0, t) && ss[|ls|].reqs[0].phase.vers[t] == 1
  {
    var s := Acknowledged(cfg, t, data);
    assert t in Range(s.reqs[0].req);
    ss, ls :| IsRun(cfg, ss, ls) && ss[|ls|] == s;
  }

  /** A run in which it is then flushed. */
  lemma FlushedRun(cfg: Config, t: nat, data: Data) returns (ss: seq<Sys>, ls: seq<Label>, i: nat)
    requires ConfigOk(cfg) && |cfg.image| <= t < cfg.blocks && !cfg.noSync
    ensures IsRun(cfg, ss, ls) && i < |ls| && Flushed(ss, ls, i, 0, i, |ls|, t) && AtRest(cfg, ss[|ls|], [], t, data)
    ensures ss[i].reqs[0].phase.vers[t] == 1
  {
    var ss0, ls0 := AcknowledgedRun(cfg, t, data);
    i := |ls0|;
    LastReachable(cfg, ss0, ls0);
    var ms, u := FlushesRest(cfg, ss0[i], t, data);
    ss := RunTook(cfg, ss0, ls0, ms, u);
    ls := ls0 + ms;
    assert ss[i] == ss0[i] && ls[i] == ms[0] && t in Range(FlushOf(t));
  }

  lemma FlushedStays(ss: seq<Sys>, ls: seq<Label>, ss': seq<Sys>, ls': seq<Label>, i: nat, w: nat, j: nat, k: nat,
                     b: nat)
    requires Flushed(ss, ls, i, w, j, k, b) && ss <= ss' && ls <= ls' && |ss'| == |ls'| + 1
    ensures Flushed(ss', ls', i, w, j, k, b)
  {
  }

  /** From a state at rest the block is overwritten, also on the medium. */
  lemma OverwrittenNext(cfg: Config, ss: seq<Sys>, ls: seq<Label>, b: nat, t: nat, data: Data, junk: Data)
    returns (ss': seq<Sys>, ls': seq<Label>)
    requires IsRun(cfg, ss, ls) && AtRest(cfg, ss[|ls|], [], t, data)
    requires Adjoins(cfg, b, t) && Fits(cfg, Stripe(cfg, b))
    ensures IsRun(cfg, ss', ls') && ss <= ss' && ls <= ls' && ss'[|ls'|].hist.log == [Entry(t, data)]
    ensures Shape(cfg, ss'[|ls'|]) && Recovered(cfg, ss'[|ls'|].disk, t) == Cell(junk, -1)
  {
    LastReachable(cfg, ss, ls);
    var ms, u, slot := CopiesOver(cfg, ss[|ls|], b, t, data, junk);
    ss' := RunTook(cfg, ss, ls, ms, u);
    ls' := ls + ms;
  }

  /** The copy of a stripe with blocks on both sides of the end of the image overwrites a flushed write. */
  lemma FlushedOverwritten(cfg: Config, b: nat, t: nat, data: Data, junk: Data)
    returns (ss: seq<Sys>, ls: seq<Label>, i: nat, k: nat)
    requires ConfigOk(cfg) && Adjoins(cfg, b, t) && Fits(cfg, Stripe(cfg, b)) && !cfg.noSync
    ensures IsRun(cfg, ss, ls) && k < |ss| && Flushed(ss, ls, i, 0, i, k, t) && ss[i].reqs[0].phase.vers[t] == 1
    ensures ss[|ls|].hist.log == [Entry(t, data)]
    ensures Shape(cfg, ss[|ls|]) && Recovered(cfg, ss[|ls|].disk, t) == Cell(junk, -1)
  {
    var ss0, ls0;
    ss0, ls0, i := FlushedRun(cfg, t, data);
    k := |ls0|;
    ss, ls := OverwrittenNext(cfg, ss0, ls0, b, t, data, junk);
    FlushedStays(ss0, ls0, ss, ls, i, 0, i, k, t);
  }

  /**
   Flushed writes survive crashes if and only if flushes are ignored, so that there are none, or no stripe
   with blocks on both sides of the end of the image can be copied.
   */
  lemma KeepsFlushedIff(cfg: Config)
    requires ConfigOk(cfg)
    ensures KeepsFlushed(cfg) <==> cfg.noSync || TailApart(cfg)
  {
    if cfg.noSync || TailApart(cfg) {
      forall ss, ls, i: nat, w: nat, j: nat, k: nat, b: nat, m: nat
        | IsRun(cfg, ss, ls) && Flushed(ss, ls, i, w, j, k, b) && k <= m < |ss|
        ensures Survives(cfg, ss[i], w, b, ss[m])
      {
        FlushedSurvives(cfg, ss, ls, i, w, j, k, b, m);
      }
    } else {
      var b: nat, t: nat :| Adjoins(cfg, b, t) && Fits(cfg, Stripe(cfg, b));
      var ss, ls, i, k := FlushedOverwritten(cfg, b, t, 0, 1);
      assert !Survives(cfg, ss[i], 0, t, ss[|ls|]);
    }
  }

  // ---------------------------------------------------------------- written data, read back

  /** The read of block `b` that ended in `t` returned what write `w` put there, or a later write. */
  ghost predicate Returns(s: Sys, w: nat, b: nat, t: Sys, r: nat)
    requires Wrote(s, w, b) && r < |t.reqs| && t.reqs[r].phase.ReadOk?
  {
    b in t.reqs[r].phase.got && WrittenSince(t.hist.log, b, s.reqs[w].phase.vers[b], t.reqs[r].phase.got[b].data)
  }

  /** By moment `i` write `w` of block `b` completed; a read of it, dispatched later in the session, ends well. */
  ghost predicate ReadAfter(ss: seq<Sys>, ls: seq<Label>, i: nat, w: nat, b: nat, d: nat, e: nat, r: nat) {
    && i < |ss| && Wrote(ss[i], w, b) && i <= d && ReadDone(ss, ls, d, e, r, b)
    && ss[i].hist.session == ss[d].hist.session
  }

  /** A read dispatched after a write completed, in the same session, returns its data or later data. */
  ghost predicate ReadsBack(cfg: Config) {
    forall ss, ls, i: nat, w: nat, b: nat, d: nat, e: nat, r: nat
      | IsRun(cfg, ss, ls) && ReadAfter(ss, ls, i, w, b, d, e, r) :: Returns(ss[i], w, b, ss[e + 1], r)
  }

  /** A read dispatched after a flushed write, in whichever session, returns its data or later data. */
  ghost predicate ReadsFlushedBack(cfg: Config) {
    forall ss, ls, i: nat, w: nat, j: nat, k: nat, b: nat, d: nat, e: nat, r: nat
      | IsRun(cfg, ss, ls) && Flushed(ss, ls, i, w, j, k, b) && k <= d && ReadDone(ss, ls, d, e, r, b) ::
        Returns(ss[i], w, b, ss[e + 1], r)
  }

  /** In an exposed configuration some block can be read wrongly. */
  lemma ExposedBlock(cfg: Config) returns (b: nat, t: nat)
    requires ConfigOk(cfg) && Exposed(cfg)
    ensures Endangered(cfg, b, t)
  {
    if !TailApart(cfg) {
      b, t :| Adjoins(cfg, b, t) && Fits(cfg, Stripe(cfg, b));
    } else {
      b, t :| Adjoins(cfg, b, t);
    }
  }

  lemma WrongAfterWrite(cfg: Config)
    requires ConfigOk(cfg) && Exposed(cfg)
    ensures !ReadsBack(cfg)
  {
    var b, t := ExposedBlock(cfg);
    var ss, ls := AcknowledgedRun(cfg, t, 0);
    var ss', ls', d, r := WrongReadRun(cfg, ss, ls, b, t, 0, 1);
    assert ss'[|ls|] == ss[|ls|];
    assert ReadAfter(ss', ls', |ls|, 0, t, d, d + 3, r);
    assert !Returns(ss'[|ls|], 0, t, ss'[d + 3 + 1], r);
  }

  lemma WrongAfterFlush(cfg: Config)
    requires ConfigOk(cfg) && Exposed(cfg) && !cfg.noSync
    ensures !ReadsFlushedBack(cfg)
  {
    var b, t := ExposedBlock(cfg);
    var ss, ls, i := FlushedRun(cfg, t, 0);
    var ss', ls', d, r := WrongReadRun(cfg, ss, ls, b, t, 0, 1);
    FlushedStays(ss, ls, ss', ls', i, 0, i, |ls|, t);
    assert ss'[i] == ss[i];
    assert !Returns(ss'[i], 0, t, ss'[d + 3 + 1], r);
  }

  /** Written data is read back within a session if and only if the configuration is not exposed. */
  lemma ReadsBackIff(cfg: Config)
    requires ConfigOk(cfg)
    ensures ReadsBack(cfg) <==> TailApart(cfg) && ReadsApart(cfg)
  {
    if Exposed(cfg) {
      WrongAfterWrite(cfg);
    } else {
      forall ss, ls, i: nat, w: nat, b: nat, d: nat, e: nat, r: nat
        | IsRun(cfg, ss, ls) && ReadAfter(ss, ls, i, w, b, d, e, r)
        ensures Returns(ss[i], w, b, ss[e + 1], r)
      {
        WrittenReadBack(cfg, ss, ls, i, w, b, d, e, r);
      }
    }
  }

  lemma FlushedReturns(cfg: Config, ss: seq<Sys>, ls: seq<Label>, i: nat, w: nat, j: nat, k: nat, b: nat,
                       d: nat, e: nat, r: nat)
    requires IsRun(cfg, ss, ls) && (cfg.noSync || !Exposed(cfg)) && Flushed(ss, ls, i, w, j, k, b)
    requires k <= d && ReadDone(ss, ls, d, e, r, b)
    ensures Returns(ss[i], w, b, ss[e + 1], r)
  {
    if cfg.noSync {
      RunUnsynced(cfg, ss, ls, k);
      assert false;
    }
    FlushedReadBack(cfg, ss, ls, i, w, j, k, b, d, e, r);
  }

  /** Flushed data is read back over crashes if and only if there are no flushes or the configuration is not exposed. */
  lemma ReadsFlushedBackIff(cfg: Config)
    requires ConfigOk(cfg)
    ensures ReadsFlushedBack(cfg) <==> cfg.noSync || (TailApart(cfg) && ReadsApart(cfg))
  {
    if !cfg.noSync && Exposed(cfg) {
      WrongAfterFlush(cfg);
    } else {
      forall ss, ls, i: nat, w: nat, j: nat, k: nat, b: nat, d: nat, e: nat, r: nat
        | IsRun(cfg, ss, ls) && Flushed(ss, ls, i, w, j, k, b) && k <= d && ReadDone(ss, ls, d, e, r, b)
        ensures Returns(ss[i], w, b, ss[e + 1], r)
      {
        FlushedReturns(cfg, ss, ls, i, w, j, k, b, d, e, r);
      }
    }
  }
}
