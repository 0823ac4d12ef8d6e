/**
 Requests leave a channel's list in the order they entered it, and each is in exactly one place.
 With that, every step keeps the shape of the state.
 */
module Order {
  import opened Types
  import opened Protocol
  import opened Frames

  ghost predicate Increasing(ids: seq<nat>) {
    forall a, b | 0 <= a < b < |ids| :: ids[a] < ids[b]
  }

  /** What channel `c` has taken off its list, followed by the list, is what was put on it, in order. */
  ghost predicate ChanOrder(ch: Chan, c: nat, reqs: seq<Io>) {
    && ch.arrived == ch.served + ch.io
    && Increasing(ch.arrived)
    && (forall k | 0 <= k < |ch.arrived| :: ch.arrived[k] < |reqs| && reqs[ch.arrived[k]].chan == c)
    && (forall k | 0 <= k < |ch.io| :: ch.io[k] < |reqs| && reqs[ch.io[k]].phase.Waiting? && reqs[ch.io[k]].chan == c)
  }

  ghost predicate Ordered(chans: seq<Chan>, reqs: seq<Io>) {
    && (forall c | 0 <= c < |chans| :: ChanOrder(chans[c], c, reqs))
    && (forall i | 0 <= i < |reqs| && reqs[i].phase.Waiting? :: reqs[i].chan < |chans| && i in chans[reqs[i].chan].io)
  }

  ghost predicate Good(cfg: Config, s: Sys) {
    Shape(cfg, s) && Ordered(s.chans, s.reqs)
  }

  /** The lists are the same; other parts of the channels may differ. */
  ghost predicate SameLists(a: seq<Chan>, b: seq<Chan>) {
    && |a| == |b|
    && forall c | 0 <= c < |a| :: b[c].io == a[c].io && b[c].arrived == a[c].arrived && b[c].served == a[c].served
  }

  lemma OrderedTouch(chans: seq<Chan>, reqs: seq<Io>, chans': seq<Chan>, reqs': seq<Io>, i: nat)
    requires Ordered(chans, reqs) && SameLists(chans, chans') && PhaseOnly(reqs, reqs', i)
    requires reqs[i].phase.Waiting? == reqs'[i].phase.Waiting?
    ensures Ordered(chans', reqs')
  {
  }

  /** The head of a list leaves it. */
  lemma OrderedPop(chans: seq<Chan>, reqs: seq<Io>, c: nat, ch: Chan, reqs': seq<Io>)
    requires Ordered(chans, reqs) && c < |chans| && chans[c].io != []
    requires ch.io == chans[c].io[1..] && ch.served == chans[c].served + [chans[c].io[0]]
    requires ch.arrived == chans[c].arrived
    requires PhaseOnly(reqs, reqs', chans[c].io[0]) && !reqs'[chans[c].io[0]].phase.Waiting?
    ensures Ordered(chans[c := ch], reqs')
  {
    var i := chans[c].io[0];
    var was := chans[c];
    var chans' := chans[c := ch];
    assert was.io == [i] + ch.io;
    assert ch.arrived == ch.served + ch.io;
    forall k | 0 <= k < |ch.io|
      ensures ch.io[k] != i
    {
      assert ch.io[k] == was.arrived[|was.served| + 1 + k] && i == was.arrived[|was.served|];
    }
    assert ChanOrder(ch, c, reqs');
    forall d | 0 <= d < |chans'| && d != c
      ensures ChanOrder(chans'[d], d, reqs')
    {
      assert ChanOrder(chans[d], d, reqs);
    }
  }

  /** A new request enters the end of a list. */
  lemma OrderedPush(chans: seq<Chan>, reqs: seq<Io>, c: nat, ch: Chan, io: Io)
    requires Ordered(chans, reqs) && c < |chans|
    requires io.chan == c && io.phase.Waiting?
    requires ch.io == chans[c].io + [|reqs|] && ch.arrived == chans[c].arrived + [|reqs|]
    requires ch.served == chans[c].served
    ensures Ordered(chans[c := ch], reqs + [io])
  {
    assert ch.arrived == ch.served + ch.io;
    var chans', reqs' := chans[c := ch], reqs + [io];
    forall i | 0 <= i < |reqs'| && reqs'[i].phase.Waiting?
      ensures reqs'[i].chan < |chans'| && i in chans'[reqs'[i].chan].io
    {
      if i == |reqs| {
        assert ch.io[|ch.io| - 1] == i;
      }
    }
  }

  // ---------------------------------------------------------------- every step

  lemma GoodTouch(cfg: Config, s: Sys, t: Sys, i: nat)
    requires Good(cfg, s) && Touches(s, t, i)
    requires PhaseShape(s.reqs[i].req, t.reqs[i].phase) && DiskShape(cfg, t.disk) && HistShape(cfg, t.hist)
    ensures Good(cfg, t)
  {
    OrderedTouch(s.chans, s.reqs, t.chans, t.reqs, i);
  }

  lemma GoodPop(cfg: Config, s: Sys, t: Sys, c: nat)
    requires Good(cfg, s) && Pops(s, t, c)
    requires PhaseShape(s.reqs[s.chans[c].io[0]].req, t.reqs[s.chans[c].io[0]].phase)
    ensures Good(cfg, t)
  {
    assert ChanOrder(s.chans[c], c, s.reqs);
    OrderedPop(s.chans, s.reqs, c, t.chans[c], t.reqs);
  }

  lemma ShapeSubmit(cfg: Config, s: Sys, c: nat, req: Request)
    requires Shape(cfg, s) && c < |s.chans| && RequestOk(cfg, req)
    ensures Shape(cfg, SubmitStep(cfg, s, c, req))
  {
  }

  lemma GoodSubmit(cfg: Config, s: Sys, c: nat, req: Request)
    requires Good(cfg, s) && c < |s.chans| && RequestOk(cfg, req)
    ensures Good(cfg, SubmitStep(cfg, s, c, req))
  {
    ShapeSubmit(cfg, s, c, req);
    var t := SubmitStep(cfg, s, c, req);
    var io := t.reqs[|s.reqs|];
    if io.phase.Waiting? {
      OrderedPush(s.chans, s.reqs, c, t.chans[c], io);
    }
  }

  /** From `s` to `t` slot `k` of channel `c`, and perhaps its queue, changes; no request does. */
  ghost predicate Advances(s: Sys, t: Sys, c: nat, k: nat) {
    && InSlot(s, c, k) && |t.chans| == |s.chans| && t.chans == s.chans[c := t.chans[c]]
    && |t.chans[c].slots| == |s.chans[c].slots| && t.chans[c].slots == s.chans[c].slots[k := t.chans[c].slots[k]]
    && t.chans[c] == s.chans[c].(slots := t.chans[c].slots, queue := t.chans[c].queue, started := t.chans[c].started,
                                 polling := t.chans[c].polling, prepared := t.chans[c].prepared)
    && t.reqs == s.reqs && t.flushed == s.flushed && t.hist == s.hist
    && t.disk.volMeta == s.disk.volMeta && t.disk.durMeta == s.disk.durMeta
  }

  lemma AdvancesSlot(cfg: Config, s: Sys, l: Label)
    requires Shape(cfg, s) && Enabled(cfg, s, l) && OfFetch(l)
    ensures Advances(s, Step(cfg, s, l), l.c, l.k)
  {
  }

  lemma GoodAdvance(cfg: Config, s: Sys, t: Sys, c: nat, k: nat)
    requires Good(cfg, s) && Advances(s, t, c, k) && ChanShape(cfg, t.chans[c], |t.reqs|)
    requires |t.status| == |t.headers| == MAX_STRIPES && DiskShape(cfg, t.disk)
    ensures Good(cfg, t)
  {
    assert SameLists(s.chans, t.chans);
  }

  lemma GoodFetchStep(cfg: Config, s: Sys, l: Label)
    requires Good(cfg, s) && Enabled(cfg, s, l) && OfFetch(l)
    ensures Good(cfg, Step(cfg, s, l))
  {
    AdvancesSlot(cfg, s, l);
    GoodAdvance(cfg, s, Step(cfg, s, l), l.c, l.k);
  }

  lemma GoodPollStep(cfg: Config, s: Sys, l: Label)
    requires Good(cfg, s) && Enabled(cfg, s, l) && (l.Reject? || l.Bug? || l.Serve?)
    ensures Good(cfg, Step(cfg, s, l))
  {
    PopsHead(cfg, s, l);
    var r := Range(s.reqs[s.chans[l.c].io[0]].req);
    assert r + {} == r;
    GoodPop(cfg, s, Step(cfg, s, l), l.c);
  }

  lemma GoodReadStep(cfg: Config, s: Sys, l: Label)
    requires Good(cfg, s) && Enabled(cfg, s, l) && OfRead(l)
    ensures Good(cfg, RequestStep(cfg, s, l))
  {
    TouchesRead(cfg, s, l);
    var t := RequestStep(cfg, s, l);
    if l.BaseReadBlock? {
      var p, q := s.reqs[l.i].phase, t.reqs[l.i].phase;
      assert q.pending + q.got.Keys == p.pending + p.got.Keys;
    } else if l.GetBuf? {
      var r := Range(s.reqs[l.i].req);
      assert r + {} == r;
    }
    GoodTouch(cfg, s, t, l.i);
  }

  lemma GoodWriteStep(cfg: Config, s: Sys, l: Label)
    requires Good(cfg, s) && Enabled(cfg, s, l) && OfWrite(l)
    ensures Good(cfg, RequestStep(cfg, s, l))
  {
    TouchesWrite(cfg, s, l);
    var t := RequestStep(cfg, s, l);
    if l.WriteApply? {
      var p, q := s.reqs[l.i].phase, t.reqs[l.i].phase;
      assert q.pending + q.vers.Keys == p.pending + p.vers.Keys;
    }
    GoodTouch(cfg, s, t, l.i);
  }

  lemma GoodFlushStep(cfg: Config, s: Sys, l: Label)
    requires Good(cfg, s) && Enabled(cfg, s, l) && OfFlush(l)
    ensures Good(cfg, FlushStep(cfg, s, l))
  {
    TouchesFlush(cfg, s, l);
    GoodTouch(cfg, s, FlushStep(cfg, s, l), l.i);
  }

  lemma GoodRing(cfg: Config, s: Sys, l: Label)
    requires Good(cfg, s) && Enabled(cfg, s, l) && l.Ring?
    ensures Good(cfg, Step(cfg, s, l))
  {
    RingsOnly(cfg, s, l);
    assert SameLists(s.chans, Step(cfg, s, l).chans);
  }

  lemma GoodDeviceStep(cfg: Config, s: Sys, l: Label)
    requires Good(cfg, s) && Enabled(cfg, s, l) && OfDevice(l)
    ensures Good(cfg, DeviceStep(cfg, s, l))
  {
  }

  /** Every step, whatever it is, keeps the shape of the state and the order of service. */
  lemma GoodOpen(cfg: Config, s: Sys)
    requires Good(cfg, s)
    ensures Good(cfg, s.(chans := s.chans + [EmptyChan()]))
  {
  }

  lemma GoodStep(cfg: Config, s: Sys, l: Label)
    requires Good(cfg, s) && Enabled(cfg, s, l)
    ensures Good(cfg, Step(cfg, s, l))
  {
    if OfFetch(l) {
      GoodFetchStep(cfg, s, l);
    } else if l.Submit? {
      GoodSubmit(cfg, s, l.c, l.req);
    } else if l.Reject? || l.Bug? || l.Serve? {
      GoodPollStep(cfg, s, l);
    } else if OfRead(l) {
      StepIsRequest(cfg, s, l);
      GoodReadStep(cfg, s, l);
    } else if OfWrite(l) {
      StepIsRequest(cfg, s, l);
      GoodWriteStep(cfg, s, l);
    } else if OfFlush(l) {
      StepIsFlush(cfg, s, l);
      GoodFlushStep(cfg, s, l);
    } else if l.Ring? {
      GoodRing(cfg, s, l);
    } else if OfDevice(l) {
      StepIsDevice(cfg, s, l);
      GoodDeviceStep(cfg, s, l);
    } else {
      GoodOpen(cfg, s);
    }
  }
}
