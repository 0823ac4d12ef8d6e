/**
 The ring of queued stripes has no check for overflow. Every stripe in flight keeps its holder, and
 waiting requests can always be served, exactly as long as callers leave room in the rings.
 */
module Room {
  import opened Types
  import opened Protocol
  import opened Order
  import opened Ownership
  import opened Resources
  import opened Holders
  import opened Progress
  import opened Runs
  import opened History

  /** At most `most` requests ever wait on a channel. */
  ghost predicate WaitAtMost(ss: seq<Sys>, most: nat) {
    forall n, c | 0 <= n < |ss| && 0 <= c < |ss[n].chans| :: |ss[n].chans[c].io| <= most
  }

  /** With at most `most` requests waiting on a channel, its ring cannot overflow. */
  predicate HasRoom(cfg: Config, most: nat) {
    most < 32768 || |cfg.image| <= 32767 * cfg.stripeBlocks
  }

  // ---------------------------------------------------------------- enough room

  lemma ImageStripeBelow(cfg: Config, b: nat)
    requires 0 < cfg.stripeBlocks && b < |cfg.image| <= (FETCH_QUEUE_SIZE - 1) * cfg.stripeBlocks
    ensures Stripe(cfg, b) < FETCH_QUEUE_SIZE - 1
  {
    var q := Stripe(cfg, b);
    assert q * cfg.stripeBlocks <= b;
    MulCancels(q, FETCH_QUEUE_SIZE - 1, cfg.stripeBlocks);
  }

  /** A full ring and one stripe more are as many different stripes of the image. */
  lemma FullRingNeedsImage(cfg: Config, s: Sys, l: Label)
    requires Shape(cfg, s) && Fetches(cfg, s) && Overflows(cfg, s, l)
    ensures |cfg.image| > (FETCH_QUEUE_SIZE - 1) * cfg.stripeBlocks
  {
    if |cfg.image| <= (FETCH_QUEUE_SIZE - 1) * cfg.stripeBlocks {
      var ch, x := s.chans[l.c], Stripe(cfg, l.req.start);
      forall y: nat
        ensures multiset(ch.queue)[y] + Held(ch.slots, y) <= 1
      {
        AllAt(s.chans, l.c, y);
        assert AllOwned(s.chans, y) <= Share(s.status, y);
      }
      QueueSize(ch.queue);
      forall y | y in QueueSet(ch.queue)
        ensures y < FETCH_QUEUE_SIZE - 1 && y != x
      {
        QueuedOnImage(cfg, s, l.c, y);
      }
      ImageStripeBelow(cfg, l.req.start);
      Bounded(QueueSet(ch.queue) + {x}, FETCH_QUEUE_SIZE - 1);
      assert false;
    }
  }

  lemma QueuedOnImage(cfg: Config, s: Sys, c: nat, y: nat)
    requires Shape(cfg, s) && Fetches(cfg, s) && c < |s.chans| && y in s.chans[c].queue
    requires |cfg.image| <= (FETCH_QUEUE_SIZE - 1) * cfg.stripeBlocks
    ensures y < FETCH_QUEUE_SIZE - 1 && y < |s.status| && s.status[y] == Inflight
  {
    var ch := s.chans[c];
    assert y in multiset(ch.queue);
    assert Owned(ch, y) > 0;
    AllAt(s.chans, c, y);
    assert AllOwned(s.chans, y) <= Share(s.status, y);
    var k :| 0 <= k < |ch.io| && Waits(cfg, s.reqs, ch.io[k], y);
    ImageStripeBelow(cfg, s.reqs[ch.io[k]].req.start);
  }

  lemma NoOverflow(cfg: Config, s: Sys, l: Label, most: nat)
    requires Shape(cfg, s) && Fetches(cfg, s) && Enabled(cfg, s, l) && HasRoom(cfg, most)
    requires l.Submit? ==> |SubmitStep(cfg, s, l.c, l.req).chans[l.c].io| <= most
    ensures !Overflows(cfg, s, l)
  {
    if Overflows(cfg, s, l) {
      FullRingNeedsImage(cfg, s, l);
      HoldsNoMoreThanWaits(cfg, s, l.c);
      assert false;
    }
  }

  /** With room, every stripe in flight is held in every state. */
  lemma {:induction false} RunHeld(cfg: Config, ss: seq<Sys>, ls: seq<Label>, most: nat, n: nat)
    requires IsRun(cfg, ss, ls) && WaitAtMost(ss, most) && HasRoom(cfg, most) && n < |ss|
    ensures HeldAll(ss[n].status, ss[n].chans)
  {
    if n == 0 {
    } else {
      RunHeld(cfg, ss, ls, most, n - 1);
      RunSound(cfg, ss, ls, n - 1);
      assert Goes(cfg, ss, ls, n - 1);
      StepHeld(cfg, ss[n - 1], ls[n - 1], ss[n], most);
    }
  }

  lemma StepHeld(cfg: Config, s: Sys, l: Label, t: Sys, most: nat)
    requires Good(cfg, s) && Fetches(cfg, s) && HeldAll(s.status, s.chans) && Enabled(cfg, s, l) && HasRoom(cfg, most)
    requires t == Step(cfg, s, l) && forall c | 0 <= c < |t.chans| :: |t.chans[c].io| <= most
    ensures HeldAll(t.status, t.chans)
  {
    NoOverflow(cfg, s, l, most);
    FetchesStep(cfg, s, l);
  }

  // ---------------------------------------------------------------- too little room

  /** The write that asks for stripe `i`. */
  function Asking(cfg: Config, i: nat): Request {
    Request(Write, i * cfg.stripeBlocks, 1, [0])
  }

  /** After `n` writes to different stripes on one channel, none of them polled for. */
  ghost predicate Flooded(cfg: Config, s: Sys, n: nat) {
    && |s.chans| == 1 && |s.reqs| == n && |s.status| == MAX_STRIPES
    && s.chans[0] == EmptyChan().(queue := s.chans[0].queue, io := s.chans[0].io, arrived := s.chans[0].arrived)
    && s.chans[0].queue == (if n < FETCH_QUEUE_SIZE then seq(n, i => i) else [])
    && s.chans[0].io == seq(n, i => i)
    && (forall i | 0 <= i < n :: s.reqs[i].phase == Waiting && s.reqs[i].req == Asking(cfg, i))
    && (forall x | 0 <= x < MAX_STRIPES :: s.status[x] == if x < n then Inflight else NotFetched)
  }

  lemma AskingOk(cfg: Config, i: nat)
    requires ConfigOk(cfg) && |cfg.image| > i * cfg.stripeBlocks
    ensures RequestOk(cfg, Asking(cfg, i)) && OnImage(cfg, Asking(cfg, i)) && !Spans(cfg, Asking(cfg, i))
    ensures Stripe(cfg, Asking(cfg, i).start) == i < MAX_STRIPES
  {
    var b := i * cfg.stripeBlocks;
    assert EndBlock(Asking(cfg, i)) == b;
    var q := Stripe(cfg, b);
    assert q * cfg.stripeBlocks <= b < (q + 1) * cfg.stripeBlocks;
    MulCancels(i, q + 1, cfg.stripeBlocks);
    assert (i + 1) * cfg.stripeBlocks == b + cfg.stripeBlocks;
    MulCancels(q, i + 1, cfg.stripeBlocks);
  }

  lemma FloodOne(cfg: Config, s: Sys, n: nat)
    requires Shape(cfg, s) && Flooded(cfg, s, n) && n < FETCH_QUEUE_SIZE && |cfg.image| > n * cfg.stripeBlocks
    ensures RequestOk(cfg, Asking(cfg, n)) && Flooded(cfg, SubmitStep(cfg, s, 0, Asking(cfg, n)), n + 1)
  {
    AskingOk(cfg, n);
    var t := SubmitStep(cfg, s, 0, Asking(cfg, n));
    assert seq(n, i => i) + [n] == seq(n + 1, i => i);
  }

  lemma ImageReaches(cfg: Config, i: nat)
    requires i < FETCH_QUEUE_SIZE && |cfg.image| > (FETCH_QUEUE_SIZE - 1) * cfg.stripeBlocks
    ensures |cfg.image| > i * cfg.stripeBlocks
  {
    MulMonotone(i, FETCH_QUEUE_SIZE - 1, cfg.stripeBlocks);
  }

  /** On an image with more stripes than the ring has room for, any number of them can be asked for without a poll. */
  lemma {:induction false} Flood(cfg: Config, n: nat) returns (ss: seq<Sys>, ls: seq<Label>)
    requires ConfigOk(cfg) && |cfg.image| > (FETCH_QUEUE_SIZE - 1) * cfg.stripeBlocks && n <= FETCH_QUEUE_SIZE
    ensures IsRun(cfg, ss, ls) && WaitAtMost(ss, n) && Flooded(cfg, ss[|ls|], n)
  {
    if n == 0 {
      ss, ls := FloodNone(cfg);
    } else {
      ss, ls := Flood(cfg, n - 1);
      ss, ls := FloodMore(cfg, ss, ls, n - 1);
    }
  }

  lemma FloodNone(cfg: Config) returns (ss: seq<Sys>, ls: seq<Label>)
    requires ConfigOk(cfg)
    ensures IsRun(cfg, ss, ls) && WaitAtMost(ss, 0) && Flooded(cfg, ss[|ls|], 0)
  {
    ss, ls := [Init(cfg)], [];
    RunSound(cfg, ss, ls, 0);
    RunExtends(cfg, ss, ls, Open);
    ss, ls := ss + [Step(cfg, Init(cfg), Open)], ls + [Open];
  }

  lemma FloodMore(cfg: Config, ss: seq<Sys>, ls: seq<Label>, n: nat) returns (ss': seq<Sys>, ls': seq<Label>)
    requires IsRun(cfg, ss, ls) && WaitAtMost(ss, n) && Flooded(cfg, ss[|ls|], n) && n < FETCH_QUEUE_SIZE
    requires |cfg.image| > (FETCH_QUEUE_SIZE - 1) * cfg.stripeBlocks
    ensures IsRun(cfg, ss', ls') && WaitAtMost(ss', n + 1) && Flooded(cfg, ss'[|ls'|], n + 1)
  {
    var s, l := ss[|ls|], Submit(0, Asking(cfg, n));
    RunSound(cfg, ss, ls, |ls|);
    ImageReaches(cfg, n);
    FloodOne(cfg, s, n);
    RunExtends(cfg, ss, ls, l);
    ss', ls' := ss + [Step(cfg, s, l)], ls + [l];
    WaitsOneMore(ss, Step(cfg, s, l), n);
  }

  lemma WaitsOneMore(ss: seq<Sys>, t: Sys, n: nat)
    requires WaitAtMost(ss, n) && |t.chans| == 1 && |t.chans[0].io| <= n + 1
    ensures WaitAtMost(ss + [t], n + 1)
  {
  }

  /** The ring has wrapped onto its head: the stripes asked for are held by nobody, and nothing can be done. */
  lemma FloodedStuck(cfg: Config, s: Sys)
    requires Shape(cfg, s) && Flooded(cfg, s, FETCH_QUEUE_SIZE)
    requires |cfg.image| > (FETCH_QUEUE_SIZE - 1) * cfg.stripeBlocks
    ensures s.status[0] == Inflight && forall p, x :: !IsHeldAt(s.chans, p, x)
    ensures s.chans[0].io != [] && forall l | Works(l) :: !Enabled(cfg, s, l)
  {
    FloodedUnheld(cfg, s);
    FloodedBlocked(cfg, s);
    forall l | Works(l)
      ensures !Enabled(cfg, s, l)
    {
      FloodedIdle(cfg, s, l);
    }
  }

  lemma FloodedUnheld(cfg: Config, s: Sys)
    requires Flooded(cfg, s, FETCH_QUEUE_SIZE)
    ensures forall p, x :: !IsHeldAt(s.chans, p, x)
  {
  }

  lemma FloodedBlocked(cfg: Config, s: Sys)
    requires Shape(cfg, s) && Flooded(cfg, s, FETCH_QUEUE_SIZE)
    requires |cfg.image| > (FETCH_QUEUE_SIZE - 1) * cfg.stripeBlocks
    ensures HeadIs(cfg, s, 0, Blocked)
  {
    ImageReaches(cfg, 0);
    AskingOk(cfg, 0);
  }

  lemma FloodedIdle(cfg: Config, s: Sys, l: Label)
    requires Shape(cfg, s) && Flooded(cfg, s, FETCH_QUEUE_SIZE) && HeadIs(cfg, s, 0, Blocked) && Works(l)
    ensures !Enabled(cfg, s, l)
  {
    if OfRead(l) || OfWrite(l) || OfFlush(l) {
      FloodedWaits(cfg, s, l);
    }
  }

  lemma FloodedWaits(cfg: Config, s: Sys, l: Label)
    requires Shape(cfg, s) && Flooded(cfg, s, FETCH_QUEUE_SIZE) && (OfRead(l) || OfWrite(l) || OfFlush(l))
    ensures !Enabled(cfg, s, l)
  {
    if Enabled(cfg, s, l) {
      TouchedPhase(cfg, s, l);
      assert false;
    }
  }

  // ---------------------------------------------------------------- exactly enough

  /** In every run with at most `most` requests waiting on a channel, a waiting request leaves something to be done. */
  ghost predicate ServesAtMost(cfg: Config, most: nat) {
    forall ss, ls | IsRun(cfg, ss, ls) && WaitAtMost(ss, most) :: Shape(cfg, ss[|ls|]) && Serving(cfg, ss[|ls|])
  }

  ghost predicate Serving(cfg: Config, s: Sys)
    requires Shape(cfg, s)
  {
    (exists c :: 0 <= c < |s.chans| && s.chans[c].io != []) ==> exists l :: Works(l) && Enabled(cfg, s, l)
  }

  lemma RoomServes(cfg: Config, ss: seq<Sys>, ls: seq<Label>, most: nat, n: nat)
    requires IsRun(cfg, ss, ls) && WaitAtMost(ss, most) && HasRoom(cfg, most) && n < |ss|
    ensures Shape(cfg, ss[n]) && Serving(cfg, ss[n])
  {
    RunSound(cfg, ss, ls, n);
    RunHeld(cfg, ss, ls, most, n);
    if c :| 0 <= c < |ss[n].chans| && ss[n].chans[c].io != [] {
      var l := WorkEnabled(cfg, ss[n], c);
    }
  }

  /**
   Waiting requests can always be served if and only if callers keep fewer than 32768 of them
   waiting on a channel, or the image has fewer than 32768 stripes.
   */
  lemma ServesIffRoom(cfg: Config, most: nat)
    requires ConfigOk(cfg)
    ensures ServesAtMost(cfg, most) <==> HasRoom(cfg, most)
  {
    if HasRoom(cfg, most) {
      forall ss, ls | IsRun(cfg, ss, ls) && WaitAtMost(ss, most)
        ensures Shape(cfg, ss[|ls|]) && Serving(cfg, ss[|ls|])
      {
        RoomServes(cfg, ss, ls, most, |ls|);
      }
    } else {
      var ss, ls := Flood(cfg, FETCH_QUEUE_SIZE);
      RunSound(cfg, ss, ls, |ls|);
      FloodedStuck(cfg, ss[|ls|]);
      assert WaitAtMost(ss, most);
      assert !Serving(cfg, ss[|ls|]);
    }
  }

  /** In every run with at most `most` requests waiting on a channel, every stripe in flight is held. */
  ghost predicate HoldsAtMost(cfg: Config, most: nat) {
    forall ss: seq<Sys>, ls: seq<Label> | IsRun(cfg, ss, ls) && WaitAtMost(ss, most) ::
      HeldAll(ss[|ls|].status, ss[|ls|].chans)
  }

  /** The same condition decides whether stripes in flight can lose their holder. */
  lemma HeldIffRoom(cfg: Config, most: nat)
    requires ConfigOk(cfg)
    ensures HoldsAtMost(cfg, most) <==> HasRoom(cfg, most)
  {
    if HasRoom(cfg, most) {
      forall ss: seq<Sys>, ls: seq<Label> | IsRun(cfg, ss, ls) && WaitAtMost(ss, most)
        ensures HeldAll(ss[|ls|].status, ss[|ls|].chans)
      {
        RunHeld(cfg, ss, ls, most, |ls|);
      }
    } else {
      var ss, ls := Flood(cfg, FETCH_QUEUE_SIZE);
      var s := ss[|ls|];
      RunSound(cfg, ss, ls, |ls|);
      FloodedStuck(cfg, s);
      OnePlace(s.status, s.chans, 0);
      assert WaitAtMost(ss, most);
      assert !HeldAll(s.status, s.chans);
    }
  }
}
