/**
 Who fetches a stripe. Only stripes in flight are held by a queue or a slot, none is held twice, and
 the channel that holds it has a request waiting for it. As long as no ring of queued stripes
 overflows, every stripe in flight is held.
 */
module Ownership {
  import opened Types
  import opened Protocol
  import opened Frames
  import opened Order

  function Holds(slot: Slot, x: nat): nat {
    if slot.Free? || slot.stripe != x then 0 else 1
  }

  /** How many slots work on stripe `x`. */
  function Held(slots: seq<Slot>, x: nat): nat {
    if slots == [] then 0 else Held(slots[..|slots| - 1], x) + Holds(slots[|slots| - 1], x)
  }

  /** How many times stripe `x` occurs in a channel's queue and slots. */
  function Owned(ch: Chan, x: nat): nat {
    multiset(ch.queue)[x] + Held(ch.slots, x)
  }

  function AllOwned(chans: seq<Chan>, x: nat): nat {
    if chans == [] then 0 else AllOwned(chans[..|chans| - 1], x) + Owned(chans[|chans| - 1], x)
  }

  lemma {:induction false} HeldUpdate(slots: seq<Slot>, k: nat, slot: Slot, x: nat)
    requires k < |slots|
    ensures Held(slots[k := slot], x) + Holds(slots[k], x) == Held(slots, x) + Holds(slot, x)
  {
    var n := |slots| - 1;
    if k == n {
      assert slots[k := slot][..n] == slots[..n];
    } else {
      assert slots[k := slot][..n] == slots[..n][k := slot];
      HeldUpdate(slots[..n], k, slot, x);
    }
  }

  lemma {:induction false} HeldFree(slots: seq<Slot>, x: nat)
    requires forall k | 0 <= k < |slots| :: slots[k].Free?
    ensures Held(slots, x) == 0
  {
    if slots == [] {
    } else {
      HeldFree(slots[..|slots| - 1], x);
    }
  }

  lemma {:induction false} HeldAt(slots: seq<Slot>, k: nat)
    requires k < |slots| && !slots[k].Free?
    ensures Held(slots, slots[k].stripe) > 0
  {
    if k == |slots| - 1 {
    } else {
      HeldAt(slots[..|slots| - 1], k);
    }
  }

  lemma {:induction false} HeldFind(slots: seq<Slot>, x: nat) returns (k: nat)
    requires Held(slots, x) > 0
    ensures k < |slots| && !slots[k].Free? && slots[k].stripe == x
  {
    var n := |slots| - 1;
    if Holds(slots[n], x) == 1 {
      k := n;
    } else {
      k := HeldFind(slots[..n], x);
    }
  }

  lemma {:induction false} AllUpdate(chans: seq<Chan>, c: nat, ch: Chan, x: nat)
    requires c < |chans|
    ensures AllOwned(chans[c := ch], x) + Owned(chans[c], x) == AllOwned(chans, x) + Owned(ch, x)
  {
    var n := |chans| - 1;
    if c == n {
      assert chans[c := ch][..n] == chans[..n];
    } else {
      assert chans[c := ch][..n] == chans[..n][c := ch];
      AllUpdate(chans[..n], c, ch, x);
    }
  }

  lemma {:induction false} AllAt(chans: seq<Chan>, c: nat, x: nat)
    requires c < |chans|
    ensures Owned(chans[c], x) <= AllOwned(chans, x)
  {
    if c == |chans| - 1 {
    } else {
      AllAt(chans[..|chans| - 1], c, x);
    }
  }

  lemma {:induction false} AllFind(chans: seq<Chan>, x: nat) returns (c: nat)
    requires AllOwned(chans, x) > 0
    ensures c < |chans| && Owned(chans[c], x) > 0
  {
    var n := |chans| - 1;
    if Owned(chans[n], x) > 0 {
      c := n;
    } else {
      c := AllFind(chans[..n], x);
    }
  }

  // ---------------------------------------------------------------- at most one owner

  /** The most owners a stripe can have. */
  function Share(status: seq<Status>, x: nat): nat {
    if x < |status| && status[x] == Inflight then 1 else 0
  }

  /** No stripe is held twice, and none that is not in flight. */
  ghost predicate OwnedOnce(status: seq<Status>, chans: seq<Chan>) {
    forall x: nat :: AllOwned(chans, x) <= Share(status, x)
  }

  /** Every stripe in flight is held. */
  ghost predicate HeldAll(status: seq<Status>, chans: seq<Chan>) {
    forall x: nat :: Share(status, x) <= AllOwned(chans, x)
  }

  lemma OwnedGain(status: seq<Status>, chans: seq<Chan>, c: nat, ch: Chan, x: nat)
    requires OwnedOnce(status, chans) && c < |chans| && x < |status| && status[x] == NotFetched
    requires ch.queue == Pushed(chans[c].queue, x) && ch.slots == chans[c].slots
    ensures OwnedOnce(status[x := Inflight], chans[c := ch])
    ensures HeldAll(status, chans) && |chans[c].queue| < FETCH_QUEUE_SIZE - 1 ==>
              HeldAll(status[x := Inflight], chans[c := ch])
  {
    var status', chans' := status[x := Inflight], chans[c := ch];
    forall y: nat
      ensures AllOwned(chans', y) <= Share(status', y)
      ensures HeldAll(status, chans) && |chans[c].queue| < FETCH_QUEUE_SIZE - 1 ==>
               Share(status', y) <= AllOwned(chans', y)
    {
      AllUpdate(chans, c, ch, y);
      assert AllOwned(chans, y) <= Share(status, y);
      if |chans[c].queue| < FETCH_QUEUE_SIZE - 1 {
        assert AllOwned(chans', y) == AllOwned(chans, y) + if x == y then 1 else 0;
      }
    }
  }

  lemma OwnedMove(status: seq<Status>, chans: seq<Chan>, c: nat, ch: Chan)
    requires OwnedOnce(status, chans) && c < |chans|
    requires forall x: nat :: Owned(ch, x) == Owned(chans[c], x)
    ensures OwnedOnce(status, chans[c := ch])
    ensures HeldAll(status, chans) ==> HeldAll(status, chans[c := ch])
  {
    forall x: nat
      ensures AllOwned(chans[c := ch], x) == AllOwned(chans, x)
    {
      AllUpdate(chans, c, ch, x);
    }
  }

  /** A slot only works on a stripe in flight. */
  lemma SlotInflight(status: seq<Status>, chans: seq<Chan>, c: nat, k: nat)
    requires OwnedOnce(status, chans) && c < |chans|
    requires k < |chans[c].slots| && !chans[c].slots[k].Free?
    ensures chans[c].slots[k].stripe < |status| && status[chans[c].slots[k].stripe] == Inflight
  {
    HeldAt(chans[c].slots, k);
    AllAt(chans, c, chans[c].slots[k].stripe);
  }

  lemma OwnedDrop(status: seq<Status>, chans: seq<Chan>, c: nat, ch: Chan, k: nat, outcome: Status)
    requires OwnedOnce(status, chans) && c < |chans|
    requires k < |chans[c].slots| && !chans[c].slots[k].Free? && chans[c].slots[k].stripe < |status|
    requires ch.queue == chans[c].queue && ch.slots == chans[c].slots[k := Free]
    requires outcome != Inflight
    ensures OwnedOnce(status[chans[c].slots[k].stripe := outcome], chans[c := ch])
    ensures HeldAll(status, chans) ==> HeldAll(status[chans[c].slots[k].stripe := outcome], chans[c := ch])
  {
    var x := chans[c].slots[k].stripe;
    var status' := status[x := outcome];
    SlotInflight(status, chans, c, k);
    forall y: nat
      ensures AllOwned(chans[c := ch], y) == if x == y then 0 else AllOwned(chans, y)
    {
      AllUpdate(chans, c, ch, y);
      HeldUpdate(chans[c].slots, k, Free, y);
      assert AllOwned(chans, y) <= Share(status, y);
    }
    forall y: nat
      ensures AllOwned(chans[c := ch], y) <= Share(status', y)
      ensures HeldAll(status, chans) ==> Share(status', y) <= AllOwned(chans[c := ch], y)
    {
      assert AllOwned(chans, y) <= Share(status, y);
      assert Share(status', y) == if x == y then 0 else Share(status, y);
    }
  }

  lemma OwnedSwap(status: seq<Status>, chans: seq<Chan>, c: nat, ch: Chan, k: nat)
    requires OwnedOnce(status, chans) && c < |chans| && k < |chans[c].slots| == |ch.slots|
    requires !ch.slots[k].Free? && ch.slots == chans[c].slots[k := ch.slots[k]]
    requires
      || (ch.queue == chans[c].queue && !chans[c].slots[k].Free? && ch.slots[k].stripe == chans[c].slots[k].stripe)
      || (chans[c].queue == [ch.slots[k].stripe] + ch.queue && chans[c].slots[k].Free?)
    ensures OwnedOnce(status, chans[c := ch])
    ensures HeldAll(status, chans) ==> HeldAll(status, chans[c := ch])
  {
    forall x: nat
      ensures Owned(ch, x) == Owned(chans[c], x)
    {
      HeldUpdate(chans[c].slots, k, ch.slots[k], x);
    }
    OwnedMove(status, chans, c, ch);
  }

  lemma OwnedOpen(status: seq<Status>, chans: seq<Chan>)
    requires OwnedOnce(status, chans)
    ensures OwnedOnce(status, chans + [EmptyChan()])
    ensures HeldAll(status, chans) ==> HeldAll(status, chans + [EmptyChan()])
  {
    var chans' := chans + [EmptyChan()];
    assert chans'[..|chans|] == chans;
    forall x: nat
      ensures AllOwned(chans', x) == AllOwned(chans, x)
    {
      HeldFree(EmptyChan().slots, x);
    }
  }

  // ---------------------------------------------------------------- someone waits for every fetch

  /** Request `i` is for stripe `x`. */
  ghost predicate Waits(cfg: Config, reqs: seq<Io>, i: nat, x: nat)
    requires 0 < cfg.stripeBlocks
  {
    i < |reqs| && OnImage(cfg, reqs[i].req) && Stripe(cfg, reqs[i].req.start) == x
  }

  /** Every stripe the channel holds is the stripe of a request on the channel's list. */
  ghost predicate Awaited(cfg: Config, ch: Chan, reqs: seq<Io>)
    requires 0 < cfg.stripeBlocks
  {
    forall x: nat | Owned(ch, x) > 0 :: exists k :: 0 <= k < |ch.io| && Waits(cfg, reqs, ch.io[k], x)
  }

  ghost predicate AllAwaited(cfg: Config, chans: seq<Chan>, reqs: seq<Io>)
    requires 0 < cfg.stripeBlocks
  {
    forall c | 0 <= c < |chans| :: Awaited(cfg, chans[c], reqs)
  }

  /** No waiting request that starts fetches is for a stripe nobody has asked for. */
  ghost predicate Asked(cfg: Config, status: seq<Status>, reqs: seq<Io>)
    requires 0 < cfg.stripeBlocks
  {
    forall i | 0 <= i < |reqs| && reqs[i].phase.Waiting? && OnImage(cfg, reqs[i].req) && Fetching(cfg, reqs[i].req) ::
      && Stripe(cfg, reqs[i].req.start) < |status|
      && status[Stripe(cfg, reqs[i].req.start)] != NotFetched
  }

  ghost predicate SameRequests(a: seq<Io>, b: seq<Io>) {
    |a| <= |b| && forall i | 0 <= i < |a| :: a[i].req == b[i].req
  }

  lemma AwaitedMono(cfg: Config, ch: Chan, reqs: seq<Io>, ch': Chan, reqs': seq<Io>)
    requires 0 < cfg.stripeBlocks && Awaited(cfg, ch, reqs)
    requires forall x: nat :: Owned(ch', x) > 0 ==> Owned(ch, x) > 0
    requires ch.io <= ch'.io && SameRequests(reqs, reqs')
    ensures Awaited(cfg, ch', reqs')
  {
    forall x: nat | Owned(ch', x) > 0
      ensures exists k :: 0 <= k < |ch'.io| && Waits(cfg, reqs', ch'.io[k], x)
    {
      var k :| 0 <= k < |ch.io| && Waits(cfg, reqs, ch.io[k], x);
      assert Waits(cfg, reqs', ch'.io[k], x);
    }
  }

  /** A request for `x` enters the list, and perhaps `x` the queue. */
  lemma AwaitedPush(cfg: Config, ch: Chan, reqs: seq<Io>, ch': Chan, reqs': seq<Io>, x: nat)
    requires 0 < cfg.stripeBlocks && Awaited(cfg, ch, reqs) && SameRequests(reqs, reqs')
    requires ch'.queue == Pushed(ch.queue, x) && ch'.slots == ch.slots && ch.io < ch'.io
    requires Waits(cfg, reqs', ch'.io[|ch.io|], x)
    ensures Awaited(cfg, ch', reqs')
  {
    forall y: nat | Owned(ch', y) > 0
      ensures exists k :: 0 <= k < |ch'.io| && Waits(cfg, reqs', ch'.io[k], y)
    {
      if x == y {
        assert Waits(cfg, reqs', ch'.io[|ch.io|], y);
      } else {
        assert ch'.queue == ch.queue + [x] || ch'.queue == [];
        assert Owned(ch', y) <= Owned(ch, y);
        var k :| 0 <= k < |ch.io| && Waits(cfg, reqs, ch.io[k], y);
        assert Waits(cfg, reqs', ch'.io[k], y);
      }
    }
  }

  /** A request whose stripe is not in flight can leave the list. */
  lemma AwaitedPop(cfg: Config, status: seq<Status>, chans: seq<Chan>, reqs: seq<Io>, c: nat, ch': Chan, reqs': seq<Io>)
    requires 0 < cfg.stripeBlocks && OwnedOnce(status, chans) && c < |chans| && Awaited(cfg, chans[c], reqs)
    requires chans[c].io != [] && ch'.io == chans[c].io[1..] && SameRequests(reqs, reqs')
    requires ch'.queue == chans[c].queue && ch'.slots == chans[c].slots
    requires chans[c].io[0] < |reqs|
    requires OnImage(cfg, reqs[chans[c].io[0]].req) ==>
               var x := Stripe(cfg, reqs[chans[c].io[0]].req.start); x < |status| && status[x] != Inflight
    ensures Awaited(cfg, ch', reqs')
  {
    var ch := chans[c];
    forall x: nat | Owned(ch', x) > 0
      ensures exists k :: 0 <= k < |ch'.io| && Waits(cfg, reqs', ch'.io[k], x)
    {
      assert Owned(ch, x) == Owned(ch', x);
      var k :| 0 <= k < |ch.io| && Waits(cfg, reqs, ch.io[k], x);
      AllAt(chans, c, x);
      assert 0 < AllOwned(chans, x) <= Share(status, x);
      assert ch'.io[k - 1] == ch.io[k];
      assert Waits(cfg, reqs', ch'.io[k - 1], x);
    }
  }

  // ---------------------------------------------------------------- every step

  ghost predicate Fetches(cfg: Config, s: Sys)
    requires 0 < cfg.stripeBlocks
  {
    OwnedOnce(s.status, s.chans) && AllAwaited(cfg, s.chans, s.reqs) && Asked(cfg, s.status, s.reqs)
  }

  ghost predicate SameFetchers(a: seq<Chan>, b: seq<Chan>) {
    && |a| == |b|
    && forall c | 0 <= c < |a| :: b[c].queue == a[c].queue && b[c].slots == a[c].slots && b[c].io == a[c].io
  }

  ghost predicate NoNewWaiting(a: seq<Io>, b: seq<Io>) {
    forall i | 0 <= i < |b| && b[i].phase.Waiting? :: i < |a| && a[i].phase.Waiting?
  }

  lemma {:induction false} AllSame(a: seq<Chan>, b: seq<Chan>, x: nat)
    requires SameFetchers(a, b)
    ensures AllOwned(a, x) == AllOwned(b, x)
  {
    if a == [] {
    } else {
      AllSame(a[..|a| - 1], b[..|b| - 1], x);
    }
  }

  /** Steps that touch neither queues, slots, lists nor statuses. */
  lemma FetchesSame(cfg: Config, s: Sys, t: Sys)
    requires 0 < cfg.stripeBlocks && Fetches(cfg, s)
    requires t.status == s.status && SameFetchers(s.chans, t.chans)
    requires SameRequests(s.reqs, t.reqs) && NoNewWaiting(s.reqs, t.reqs)
    ensures Fetches(cfg, t)
    ensures HeldAll(s.status, s.chans) ==> HeldAll(t.status, t.chans)
  {
    forall x: nat
      ensures AllOwned(t.chans, x) == AllOwned(s.chans, x)
    {
      AllSame(s.chans, t.chans, x);
    }
    forall c | 0 <= c < |t.chans|
      ensures Awaited(cfg, t.chans[c], t.reqs)
    {
      AwaitedMono(cfg, s.chans[c], s.reqs, t.chans[c], t.reqs);
    }
  }

  lemma AllAwaitedUpdate(cfg: Config, chans: seq<Chan>, reqs: seq<Io>, c: nat, ch: Chan, reqs': seq<Io>)
    requires 0 < cfg.stripeBlocks && AllAwaited(cfg, chans, reqs) && c < |chans| && SameRequests(reqs, reqs')
    requires Awaited(cfg, ch, reqs')
    ensures AllAwaited(cfg, chans[c := ch], reqs')
  {
    forall d | 0 <= d < |chans| && d != c
      ensures Awaited(cfg, chans[d], reqs')
    {
      AwaitedMono(cfg, chans[d], reqs, chans[d], reqs');
    }
  }

  /** The step puts one stripe more into a ring than fits. */
  ghost predicate Overflows(cfg: Config, s: Sys, l: Label)
    requires 0 < cfg.stripeBlocks
  {
    && l.Submit? && l.c < |s.chans| && |s.chans[l.c].queue| >= FETCH_QUEUE_SIZE - 1
    && Fetching(cfg, l.req) && OnImage(cfg, l.req) && !Spans(cfg, l.req)
    && Stripe(cfg, l.req.start) < |s.status| && s.status[Stripe(cfg, l.req.start)] == NotFetched
  }

  /** The last request entered the list of channel `c`, and asked for no fetch. */
  lemma FetchesEnter(cfg: Config, s: Sys, t: Sys, c: nat, io: Io)
    requires 0 < cfg.stripeBlocks && Fetches(cfg, s) && c < |s.chans|
    requires t.status == s.status && t.reqs == s.reqs + [io] && |t.chans| == |s.chans|
    requires t.chans == s.chans[c := t.chans[c]] && t.chans[c].io == s.chans[c].io + [|s.reqs|]
    requires t.chans[c].queue == s.chans[c].queue && t.chans[c].slots == s.chans[c].slots
    requires OnImage(cfg, io.req) && Fetching(cfg, io.req) ==>
               && Stripe(cfg, io.req.start) < |s.status|
               && s.status[Stripe(cfg, io.req.start)] != NotFetched
    ensures Fetches(cfg, t)
    ensures HeldAll(s.status, s.chans) ==> HeldAll(t.status, t.chans)
  {
    OwnedMove(s.status, s.chans, c, t.chans[c]);
    AwaitedMono(cfg, s.chans[c], s.reqs, t.chans[c], t.reqs);
    AllAwaitedUpdate(cfg, s.chans, s.reqs, c, t.chans[c], t.reqs);
  }

  /** The last request entered the list of channel `c`, and asked for stripe `x`. */
  lemma FetchesAsk(cfg: Config, s: Sys, t: Sys, c: nat, io: Io, x: nat)
    requires 0 < cfg.stripeBlocks && Fetches(cfg, s) && c < |s.chans|
    requires x < |s.status| && s.status[x] == NotFetched && t.status == s.status[x := Inflight]
    requires t.reqs == s.reqs + [io] && OnImage(cfg, io.req) && Stripe(cfg, io.req.start) == x
    requires |t.chans| == |s.chans| && t.chans == s.chans[c := t.chans[c]]
    requires t.chans[c].io == s.chans[c].io + [|s.reqs|]
    requires t.chans[c].queue == Pushed(s.chans[c].queue, x) && t.chans[c].slots == s.chans[c].slots
    ensures Fetches(cfg, t)
    ensures HeldAll(s.status, s.chans) && |s.chans[c].queue| < FETCH_QUEUE_SIZE - 1 ==> HeldAll(t.status, t.chans)
  {
    OwnedGain(s.status, s.chans, c, t.chans[c], x);
    assert Waits(cfg, t.reqs, |s.reqs|, x);
    AwaitedPush(cfg, s.chans[c], s.reqs, t.chans[c], t.reqs, x);
    AllAwaitedUpdate(cfg, s.chans, s.reqs, c, t.chans[c], t.reqs);
  }

  lemma FetchesSubmit(cfg: Config, s: Sys, c: nat, req: Request)
    requires Shape(cfg, s) && Fetches(cfg, s) && c < |s.chans| && RequestOk(cfg, req)
    ensures Fetches(cfg, SubmitStep(cfg, s, c, req))
    ensures HeldAll(s.status, s.chans) && !Overflows(cfg, s, Submit(c, req)) ==>
              HeldAll(SubmitStep(cfg, s, c, req).status, SubmitStep(cfg, s, c, req).chans)
  {
    var t := SubmitStep(cfg, s, c, req);
    if Fetching(cfg, req) && Spans(cfg, req) {
      FetchesSame(cfg, s, t);
    } else if s.status != t.status {
      FetchesAsk(cfg, s, t, c, t.reqs[|s.reqs|], Stripe(cfg, req.start));
    } else {
      FetchesEnter(cfg, s, t, c, t.reqs[|s.reqs|]);
    }
  }

  /** The poller takes a request off a list: only ever one whose stripe is not in flight. */
  lemma FetchesPop(cfg: Config, s: Sys, c: nat, v: Verdict, t: Sys)
    requires Good(cfg, s) && Fetches(cfg, s) && HeadIs(cfg, s, c, v) && (v.Servable? || v.Refused? || v.Unexpected?)
    requires Pops(s, t, c)
    ensures Fetches(cfg, t)
    ensures HeldAll(s.status, s.chans) ==> HeldAll(t.status, t.chans)
  {
    OwnedMove(s.status, s.chans, c, t.chans[c]);
    AwaitedPop(cfg, s.status, s.chans, s.reqs, c, t.chans[c], t.reqs);
    AllAwaitedUpdate(cfg, s.chans, s.reqs, c, t.chans[c], t.reqs);
  }

  lemma AwaitedFetch(cfg: Config, s: Sys, c: nat, ch: Chan)
    requires 0 < cfg.stripeBlocks && AllAwaited(cfg, s.chans, s.reqs) && c < |s.chans|
    requires ch.io == s.chans[c].io && forall x: nat :: Owned(ch, x) <= Owned(s.chans[c], x)
    ensures AllAwaited(cfg, s.chans[c := ch], s.reqs)
  {
    AwaitedMono(cfg, s.chans[c], s.reqs, ch, s.reqs);
    AllAwaitedUpdate(cfg, s.chans, s.reqs, c, ch, s.reqs);
  }

  lemma FetchesStart(cfg: Config, s: Sys, c: nat, k: nat)
    requires Shape(cfg, s) && Fetches(cfg, s) && InSlot(s, c, k) && s.chans[c].queue != [] && s.chans[c].slots[k].Free?
    ensures Fetches(cfg, StartFetchStep(s, c, k))
    ensures HeldAll(s.status, s.chans) ==> HeldAll(s.status, StartFetchStep(s, c, k).chans)
  {
    var ch := StartFetchStep(s, c, k).chans[c];
    assert s.chans[c].queue == [ch.slots[k].stripe] + ch.queue;
    forall x: nat
      ensures Owned(ch, x) <= Owned(s.chans[c], x)
    {
      HeldUpdate(s.chans[c].slots, k, ch.slots[k], x);
    }
    AwaitedFetch(cfg, s, c, ch);
    OwnedSwap(s.status, s.chans, c, ch, k);
  }

  /** A busy slot goes on with the same stripe. */
  lemma FetchesContinue(cfg: Config, s: Sys, c: nat, k: nat, slot: Slot)
    requires Shape(cfg, s) && Fetches(cfg, s) && InSlot(s, c, k) && !s.chans[c].slots[k].Free?
    requires !slot.Free? && slot.stripe == s.chans[c].slots[k].stripe
    ensures Fetches(cfg, WithSlot(s, c, k, slot))
    ensures HeldAll(s.status, s.chans) ==> HeldAll(s.status, WithSlot(s, c, k, slot).chans)
  {
    var ch := WithSlot(s, c, k, slot).chans[c];
    forall x: nat
      ensures Owned(ch, x) <= Owned(s.chans[c], x)
    {
      HeldUpdate(s.chans[c].slots, k, slot, x);
    }
    AwaitedFetch(cfg, s, c, ch);
    OwnedSwap(s.status, s.chans, c, ch, k);
  }

  /** A slot finishes its stripe, well or badly. */
  lemma FetchesEnd(cfg: Config, s: Sys, c: nat, k: nat, outcome: Status)
    requires Shape(cfg, s) && Fetches(cfg, s) && InSlot(s, c, k) && !s.chans[c].slots[k].Free?
    requires outcome == Fetched || outcome == Failed
    ensures Fetches(cfg, WithSlot(s, c, k, Free).(status := s.status[s.chans[c].slots[k].stripe := outcome]))
    ensures HeldAll(s.status, s.chans) ==>
              HeldAll(s.status[s.chans[c].slots[k].stripe := outcome], WithSlot(s, c, k, Free).chans)
  {
    var ch := WithSlot(s, c, k, Free).chans[c];
    forall x: nat
      ensures Owned(ch, x) <= Owned(s.chans[c], x)
    {
      HeldUpdate(s.chans[c].slots, k, Free, x);
    }
    AwaitedFetch(cfg, s, c, ch);
    OwnedDrop(s.status, s.chans, c, ch, k, outcome);
  }

  lemma FetchesOpen(cfg: Config, s: Sys)
    requires 0 < cfg.stripeBlocks && Fetches(cfg, s)
    ensures Fetches(cfg, s.(chans := s.chans + [EmptyChan()]))
    ensures HeldAll(s.status, s.chans) ==> HeldAll(s.status, s.chans + [EmptyChan()])
  {
    OwnedOpen(s.status, s.chans);
    forall x: nat
      ensures Owned(EmptyChan(), x) == 0
    {
      HeldFree(EmptyChan().slots, x);
    }
  }

  lemma FetchesFetchStep(cfg: Config, s: Sys, l: Label)
    requires Good(cfg, s) && Fetches(cfg, s) && Enabled(cfg, s, l) && OfFetch(l)
    ensures Fetches(cfg, Step(cfg, s, l))
    ensures HeldAll(s.status, s.chans) ==> HeldAll(Step(cfg, s, l).status, Step(cfg, s, l).chans)
  {
    match l
    case StartFetch(c, k) =>
      FetchesStart(cfg, s, c, k);
    case FetchRead(c, k, readOk, accepted) =>
      var x := s.chans[c].slots[k].stripe;
      if readOk && accepted {
        FetchesContinue(cfg, s, c, k, Copying(x, StripeBlocks(cfg, x)));
      } else {
        FetchesEnd(cfg, s, c, k, Failed);
      }
    case FetchApply(c, k, b, junk) =>
      FetchesContinue(cfg, s, c, k, s.chans[c].slots[k].(pending := s.chans[c].slots[k].pending - {b}));
    case FetchDone(c, k) =>
      FetchesEnd(cfg, s, c, k, Fetched);
  }

  lemma FetchesPollStep(cfg: Config, s: Sys, l: Label)
    requires Good(cfg, s) && Fetches(cfg, s) && Enabled(cfg, s, l) && (l.Reject? || l.Bug? || l.Serve?)
    ensures Fetches(cfg, Step(cfg, s, l))
    ensures HeldAll(s.status, s.chans) ==> HeldAll(Step(cfg, s, l).status, Step(cfg, s, l).chans)
  {
    PopsHead(cfg, s, l);
    FetchesPop(cfg, s, l.c, if l.Reject? then Refused else if l.Bug? then Unexpected else Servable, Step(cfg, s, l));
  }

  lemma FetchesTouch(cfg: Config, s: Sys, t: Sys, i: nat)
    requires 0 < cfg.stripeBlocks && Fetches(cfg, s) && Touches(s, t, i)
    ensures Fetches(cfg, t)
    ensures HeldAll(s.status, s.chans) ==> HeldAll(t.status, t.chans)
  {
    FetchesSame(cfg, s, t);
  }

  /** Every step keeps ownership exclusive; only an overflow makes a stripe in flight lose its holder. */
  lemma FetchesStep(cfg: Config, s: Sys, l: Label)
    requires Good(cfg, s) && Fetches(cfg, s) && Enabled(cfg, s, l)
    ensures Fetches(cfg, Step(cfg, s, l))
    ensures HeldAll(s.status, s.chans) && !Overflows(cfg, s, l) ==>
              HeldAll(Step(cfg, s, l).status, Step(cfg, s, l).chans)
  {
    if OfFetch(l) {
      FetchesFetchStep(cfg, s, l);
    } else if l.Open? {
      FetchesOpen(cfg, s);
    } else if l.Submit? {
      FetchesSubmit(cfg, s, l.c, l.req);
    } else if l.Reject? || l.Bug? || l.Serve? {
      FetchesPollStep(cfg, s, l);
    } else if OfRead(l) || OfWrite(l) || OfFlush(l) {
      TouchesOne(cfg, s, l);
      FetchesTouch(cfg, s, Step(cfg, s, l), l.i);
    } else if l.Ring? {
      RingsOnly(cfg, s, l);
      FetchesSame(cfg, s, Step(cfg, s, l));
    } else if !l.Crash? {
      FetchesSame(cfg, s, Step(cfg, s, l));
    }
  }
}
