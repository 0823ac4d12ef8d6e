/** Exclusive fetching spelled out: one place per stripe in flight, and one waiting request per place. */
module Holders {
  import opened Types
  import opened Protocol
  import opened Ownership
  import opened Resources

  /** Where a stripe can be held: an entry of a channel's queue, or one of its slots. */
  datatype Place = Queued(c: nat, j: nat) | Slotted(c: nat, k: nat)

  predicate IsHeldAt(chans: seq<Chan>, p: Place, x: nat) {
    match p
    case Queued(c, j) => c < |chans| && j < |chans[c].queue| && chans[c].queue[j] == x
    case Slotted(c, k) =>
      c < |chans| && k < |chans[c].slots| && !chans[c].slots[k].Free? && chans[c].slots[k].stripe == x
  }

  lemma TwiceQueued(queue: seq<nat>, i: nat, j: nat)
    requires i < j < |queue| && queue[i] == queue[j]
    ensures multiset(queue)[queue[i]] >= 2
  {
    assert queue == queue[..j] + queue[j..];
    assert queue[..j][i] in multiset(queue[..j]);
    assert queue[j..][0] in multiset(queue[j..]);
  }

  lemma {:induction false} TwiceHeld(slots: seq<Slot>, i: nat, j: nat)
    requires i < j < |slots| && !slots[i].Free? && !slots[j].Free? && slots[i].stripe == slots[j].stripe
    ensures Held(slots, slots[i].stripe) >= 2
  {
    var n := |slots| - 1;
    if j == n {
      HeldAt(slots[..n], i);
    } else {
      TwiceHeld(slots[..n], i, j);
    }
  }

  lemma {:induction false} TwiceOwned(chans: seq<Chan>, c: nat, d: nat, x: nat)
    requires c < d < |chans| && Owned(chans[c], x) > 0 && Owned(chans[d], x) > 0
    ensures AllOwned(chans, x) >= 2
  {
    var n := |chans| - 1;
    if d == n {
      AllAt(chans[..n], c, x);
    } else {
      TwiceOwned(chans[..n], c, d, x);
    }
  }

  lemma PlaceOwned(chans: seq<Chan>, p: Place, x: nat)
    requires IsHeldAt(chans, p, x)
    ensures Owned(chans[p.c], x) > 0
  {
    match p
    case Queued(c, j) => assert chans[c].queue[j] in multiset(chans[c].queue);
    case Slotted(c, k) => HeldAt(chans[c].slots, k);
  }

  /**
   Only stripes in flight are held, two places never hold the same stripe, and all in flight are if none was
   dropped.
   */
  lemma OnePlace(status: seq<Status>, chans: seq<Chan>, x: nat)
    requires OwnedOnce(status, chans) && x < |status|
    ensures (exists p :: IsHeldAt(chans, p, x)) ==> status[x] == Inflight
    ensures HeldAll(status, chans) && status[x] == Inflight ==> exists p :: IsHeldAt(chans, p, x)
    ensures forall p, q | IsHeldAt(chans, p, x) && IsHeldAt(chans, q, x) :: p == q
  {
    if HeldAll(status, chans) && status[x] == Inflight {
      assert Share(status, x) <= AllOwned(chans, x);
      var c := AllFind(chans, x);
      if Held(chans[c].slots, x) > 0 {
        var k := HeldFind(chans[c].slots, x);
        assert IsHeldAt(chans, Slotted(c, k), x);
      } else {
        assert x in chans[c].queue;
        var j :| 0 <= j < |chans[c].queue| && chans[c].queue[j] == x;
        assert IsHeldAt(chans, Queued(c, j), x);
      }
    }
    forall p | IsHeldAt(chans, p, x)
      ensures status[x] == Inflight
    {
      PlaceOwned(chans, p, x);
      AllAt(chans, p.c, x);
      assert AllOwned(chans, x) <= Share(status, x);
    }
    forall p, q | IsHeldAt(chans, p, x) && IsHeldAt(chans, q, x)
      ensures p == q
    {
      SamePlace(status, chans, p, q, x);
    }
  }

  lemma SamePlace(status: seq<Status>, chans: seq<Chan>, p: Place, q: Place, x: nat)
    requires OwnedOnce(status, chans) && IsHeldAt(chans, p, x) && IsHeldAt(chans, q, x)
    ensures p == q
  {
    PlaceOwned(chans, p, x);
    PlaceOwned(chans, q, x);
    assert AllOwned(chans, x) <= Share(status, x);
    if p.c < q.c {
      TwiceOwned(chans, p.c, q.c, x);
    } else if q.c < p.c {
      TwiceOwned(chans, q.c, p.c, x);
    } else {
      AllAt(chans, p.c, x);
      SamePlaceIn(chans[p.c], p, q, x);
    }
  }

  lemma SamePlaceIn(ch: Chan, p: Place, q: Place, x: nat)
    requires p.c == q.c && Owned(ch, x) <= 1
    requires match p case Queued(_, j) => j < |ch.queue| && ch.queue[j] == x
                     case Slotted(_, k) => k < |ch.slots| && !ch.slots[k].Free? && ch.slots[k].stripe == x
    requires match q case Queued(_, j) => j < |ch.queue| && ch.queue[j] == x
                     case Slotted(_, k) => k < |ch.slots| && !ch.slots[k].Free? && ch.slots[k].stripe == x
    ensures p == q
  {
    if p.Queued? && q.Queued? {
      if p.j < q.j {
        TwiceQueued(ch.queue, p.j, q.j);
      } else if q.j < p.j {
        TwiceQueued(ch.queue, q.j, p.j);
      }
    } else if p.Slotted? && q.Slotted? {
      if p.k < q.k {
        TwiceHeld(ch.slots, p.k, q.k);
      } else if q.k < p.k {
        TwiceHeld(ch.slots, q.k, p.k);
      }
    } else {
      assert ch.queue[if p.Queued? then p.j else q.j] in multiset(ch.queue);
      HeldAt(ch.slots, if p.Slotted? then p.k else q.k);
    }
  }

  // ---------------------------------------------------------------- one waiting request per place

  function QueueSet(queue: seq<nat>): set<nat> {
    set x | x in queue
  }

  function SlotSet(slots: seq<Slot>): set<nat> {
    if slots == [] then {}
    else SlotSet(slots[..|slots| - 1]) + if slots[|slots| - 1].Free? then {} else {slots[|slots| - 1].stripe}
  }

  /** The stripes of the requests on a list. */
  function StripesOf(cfg: Config, reqs: seq<Io>, io: seq<nat>): set<nat>
    requires 0 < cfg.stripeBlocks
    requires forall k | 0 <= k < |io| :: io[k] < |reqs|
  {
    if io == [] then {}
    else StripesOf(cfg, reqs, io[..|io| - 1])
         + if OnImage(cfg, reqs[io[|io| - 1]].req) then {Stripe(cfg, reqs[io[|io| - 1]].req.start)} else {}
  }

  lemma {:induction false} StripesSize(cfg: Config, reqs: seq<Io>, io: seq<nat>)
    requires 0 < cfg.stripeBlocks
    requires forall k | 0 <= k < |io| :: io[k] < |reqs|
    ensures |StripesOf(cfg, reqs, io)| <= |io|
  {
    if io == [] {
    } else {
      StripesSize(cfg, reqs, io[..|io| - 1]);
    }
  }

  lemma {:induction false} StripesContain(cfg: Config, reqs: seq<Io>, io: seq<nat>, k: nat)
    requires 0 < cfg.stripeBlocks
    requires forall k | 0 <= k < |io| :: io[k] < |reqs|
    requires k < |io| && OnImage(cfg, reqs[io[k]].req)
    ensures Stripe(cfg, reqs[io[k]].req.start) in StripesOf(cfg, reqs, io)
  {
    if k == |io| - 1 {
    } else {
      StripesContain(cfg, reqs, io[..|io| - 1], k);
    }
  }

  lemma {:induction false} QueueSize(queue: seq<nat>)
    requires forall x: nat :: multiset(queue)[x] <= 1
    ensures |QueueSet(queue)| == |queue|
  {
    if queue == [] {
    } else {
      var n := |queue| - 1;
      var rest: seq<nat>, y: nat := queue[..n], queue[n];
      assert queue == rest + [y];
      assert multiset(queue) == multiset(rest) + multiset{y};
      forall x: nat
        ensures multiset(rest)[x] + (if x == y then 1 else 0) <= 1
      {
        assert multiset(queue)[x] <= 1;
      }
      QueueSize(rest);
      assert y !in multiset(rest);
      assert QueueSet(queue) == QueueSet(rest) + {y};
    }
  }

  lemma {:induction false} SlotSetHeld(slots: seq<Slot>, x: nat)
    ensures x in SlotSet(slots) <==> Held(slots, x) > 0
  {
    if slots == [] {
    } else {
      SlotSetHeld(slots[..|slots| - 1], x);
    }
  }

  lemma {:induction false} HeldSize(queue: seq<nat>, slots: seq<Slot>)
    requires forall x: nat :: multiset(queue)[x] + Held(slots, x) <= 1
    ensures |QueueSet(queue) + SlotSet(slots)| == |queue| + Busy(slots)
  {
    if slots == [] {
      QueueSize(queue);
      assert QueueSet(queue) + {} == QueueSet(queue);
    } else {
      var n := |slots| - 1;
      var rest, last := slots[..n], slots[n];
      forall x: nat
        ensures multiset(queue)[x] + Held(rest, x) <= 1
      {
        assert Held(slots, x) == Held(rest, x) + Holds(last, x);
      }
      HeldSize(queue, rest);
      if last.Free? {
        assert SlotSet(slots) == SlotSet(rest);
      } else {
        SlotSetHeld(rest, last.stripe);
        assert Held(slots, last.stripe) == Held(rest, last.stripe) + 1;
        assert last.stripe !in QueueSet(queue) + SlotSet(rest);
        assert QueueSet(queue) + SlotSet(slots) == QueueSet(queue) + SlotSet(rest) + {last.stripe};
      }
    }
  }

  /** The stripes a channel holds. */
  function HeldSet(ch: Chan): set<nat> {
    QueueSet(ch.queue) + SlotSet(ch.slots)
  }

  lemma HeldSetOwned(ch: Chan, x: nat)
    ensures x in HeldSet(ch) <==> Owned(ch, x) > 0
  {
    SlotSetHeld(ch.slots, x);
    assert x in QueueSet(ch.queue) <==> x in multiset(ch.queue);
  }

  /** A request on the list of `ch` that is for stripe `x`. */
  ghost function WaiterFor(cfg: Config, ch: Chan, reqs: seq<Io>, x: nat): (i: nat)
    requires 0 < cfg.stripeBlocks && Awaited(cfg, ch, reqs) && Owned(ch, x) > 0
    ensures i in ch.io && Waits(cfg, reqs, i, x)
  {
    var k :| 0 <= k < |ch.io| && Waits(cfg, reqs, ch.io[k], x);
    ch.io[k]
  }

  /** Every stripe a channel holds has a request of its own waiting on that channel. */
  lemma OneWaiterEach(cfg: Config, s: Sys, c: nat) returns (waiter: map<nat, nat>)
    requires Shape(cfg, s) && Fetches(cfg, s) && c < |s.chans|
    ensures waiter.Keys == HeldSet(s.chans[c])
    ensures forall x | x in waiter :: waiter[x] in s.chans[c].io && Waits(cfg, s.reqs, waiter[x], x)
    ensures forall x, y | x in waiter && y in waiter && x != y :: waiter[x] != waiter[y]
  {
    var ch := s.chans[c];
    forall x | x in HeldSet(ch)
      ensures Owned(ch, x) > 0
    {
      HeldSetOwned(ch, x);
    }
    waiter := map x | x in HeldSet(ch) :: WaiterFor(cfg, ch, s.reqs, x);
  }

  /** A channel never holds more stripes than it has requests waiting. */
  lemma HoldsNoMoreThanWaits(cfg: Config, s: Sys, c: nat)
    requires Shape(cfg, s) && Fetches(cfg, s) && c < |s.chans|
    ensures |s.chans[c].queue| + Busy(s.chans[c].slots) <= |s.chans[c].io|
  {
    var ch := s.chans[c];
    assert ChanShape(cfg, ch, |s.reqs|);
    forall x: nat
      ensures multiset(ch.queue)[x] + Held(ch.slots, x) <= 1
    {
      AllAt(s.chans, c, x);
      assert AllOwned(s.chans, x) <= Share(s.status, x);
    }
    HeldSize(ch.queue, ch.slots);
    var held := QueueSet(ch.queue) + SlotSet(ch.slots);
    forall x | x in held
      ensures x in StripesOf(cfg, s.reqs, ch.io)
    {
      SlotSetHeld(ch.slots, x);
      assert Owned(ch, x) > 0;
      var k :| 0 <= k < |ch.io| && Waits(cfg, s.reqs, ch.io[k], x);
      StripesContain(cfg, s.reqs, ch.io, k);
    }
    SubsetSize(held, StripesOf(cfg, s.reqs, ch.io));
    StripesSize(cfg, s.reqs, ch.io);
  }
}
