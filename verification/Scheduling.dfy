/** What holds of fetches, lists, limits and completions over whole runs, and why waiting requests are served. */
module Scheduling {
  import opened Types
  import opened Protocol
  import opened Frames
  import opened Order
  import opened Ownership
  import opened Resources
  import opened Holders
  import opened Progress
  import opened Runs
  import opened History
  import opened Room
  import opened Traces

  /**
   Only stripes in flight are held by a queue entry or a slot, and no two ever hold the same stripe. With room
   in the rings a stripe is in flight exactly while it is held.
   */
  lemma FetchedByOneHolder(cfg: Config, ss: seq<Sys>, ls: seq<Label>, most: nat, n: nat, x: nat)
    requires IsRun(cfg, ss, ls) && WaitAtMost(ss, most) && n < |ss| && x < MAX_STRIPES
    ensures |ss[n].status| == MAX_STRIPES
    ensures (exists p :: IsHeldAt(ss[n].chans, p, x)) ==> ss[n].status[x] == Inflight
    ensures forall p, q | IsHeldAt(ss[n].chans, p, x) && IsHeldAt(ss[n].chans, q, x) :: p == q
    ensures HasRoom(cfg, most) ==> (ss[n].status[x] == Inflight <==> exists p :: IsHeldAt(ss[n].chans, p, x))
  {
    RunSound(cfg, ss, ls, n);
    OnePlace(ss[n].status, ss[n].chans, x);
    if HasRoom(cfg, most) {
      RunHeld(cfg, ss, ls, most, n);
    }
  }

  /** Within a session a stripe goes from not fetched to in flight to fetched or failed, and never back. */
  lemma StatusMovesOn(cfg: Config, ss: seq<Sys>, ls: seq<Label>, m: nat, n: nat, x: nat)
    requires IsRun(cfg, ss, ls) && m <= n < |ss| && ss[m].hist.session == ss[n].hist.session && x < MAX_STRIPES
    ensures |ss[m].status| == |ss[n].status| == MAX_STRIPES && Onward(ss[m].status[x], ss[n].status[x])
  {
    RunSound(cfg, ss, ls, m);
    RunSound(cfg, ss, ls, n);
    RunStory(cfg, ss, ls);
    Within(ss, m, n);
  }

  /** From `s` to `t` stripe `x` enters the queue of channel `c`. */
  ghost predicate Enqueues(s: Sys, t: Sys, c: nat, x: nat) {
    c < |s.chans| && c < |t.chans| && x !in s.chans[c].queue && x in t.chans[c].queue
  }

  /** Only submission makes a queue gain a stripe, on the channel of the request and if nobody had asked for it. */
  lemma EnqueuesStep(cfg: Config, s: Sys, l: Label, c: nat, x: nat)
    requires Good(cfg, s) && Enabled(cfg, s, l) && Enqueues(s, Step(cfg, s, l), c, x)
    ensures l.Submit? && l.c == c && x < MAX_STRIPES && s.status[x] == NotFetched
    ensures |Step(cfg, s, l).status| == MAX_STRIPES && Step(cfg, s, l).status[x] == Inflight
  {
    if OfFetch(l) {
      EnqueuesFetch(cfg, s, l, c, x);
    } else if l.Reject? || l.Bug? || l.Serve? {
      PopsHead(cfg, s, l);
    } else if OfRead(l) || OfWrite(l) || OfFlush(l) {
      TouchesOne(cfg, s, l);
    } else if l.Ring? {
      RingsOnly(cfg, s, l);
    }
  }

  lemma EnqueuesFetch(cfg: Config, s: Sys, l: Label, c: nat, x: nat)
    requires Good(cfg, s) && Enabled(cfg, s, l) && OfFetch(l)
    ensures !Enqueues(s, Step(cfg, s, l), c, x)
  {
    AdvancesSlot(cfg, s, l);
  }

  lemma EnqueuedBy(cfg: Config, ss: seq<Sys>, ls: seq<Label>, n: nat, c: nat, x: nat)
    requires IsRun(cfg, ss, ls) && n < |ls| && Enqueues(ss[n], ss[n + 1], c, x)
    ensures ls[n].Submit? && ls[n].c == c && x < MAX_STRIPES == |ss[n].status| == |ss[n + 1].status|
    ensures ss[n].status[x] == NotFetched && ss[n + 1].status[x] == Inflight
  {
    RunSound(cfg, ss, ls, n);
    assert Goes(cfg, ss, ls, n);
    EnqueuesStep(cfg, ss[n], ls[n], c, x);
  }

  /** In a session a stripe enters a queue at most once, on one channel. */
  lemma EnqueuedOnce(cfg: Config, ss: seq<Sys>, ls: seq<Label>, m: nat, c: nat, n: nat, d: nat, x: nat)
    requires IsRun(cfg, ss, ls) && m <= n < |ls| && (m == n || ss[m + 1].hist.session == ss[n].hist.session)
    requires Enqueues(ss[m], ss[m + 1], c, x) && Enqueues(ss[n], ss[n + 1], d, x)
    ensures m == n && c == d
  {
    EnqueuedBy(cfg, ss, ls, m, c, x);
    EnqueuedBy(cfg, ss, ls, n, d, x);
    if m < n {
      StatusMovesOn(cfg, ss, ls, m + 1, n, x);
      assert false;
    }
  }

  /** Requests leave a channel's list in the order in which they entered it; the list is what remains. */
  lemma ServedInOrder(cfg: Config, ss: seq<Sys>, ls: seq<Label>, n: nat, c: nat)
    requires IsRun(cfg, ss, ls) && n < |ss| && c < |ss[n].chans|
    ensures var ch := ss[n].chans[c];
            ch.served <= ch.arrived && ch.io == ch.arrived[|ch.served|..] && Increasing(ch.arrived)
  {
    RunSound(cfg, ss, ls, n);
    assert ChanOrder(ss[n].chans[c], c, ss[n].reqs);
  }

  /** A channel never holds more stripes than it has requests waiting, each stripe having one of its own. */
  lemma QueueNeverFull(cfg: Config, ss: seq<Sys>, ls: seq<Label>, n: nat, c: nat) returns (waiter: map<nat, nat>)
    requires IsRun(cfg, ss, ls) && n < |ss| && c < |ss[n].chans|
    ensures |ss[n].chans[c].queue| + Busy(ss[n].chans[c].slots) <= |ss[n].chans[c].io|
    ensures |ss[n].chans[c].queue| < 32768
    ensures 0 < cfg.stripeBlocks && waiter.Keys == HeldSet(ss[n].chans[c])
    ensures forall x | x in waiter :: waiter[x] in ss[n].chans[c].io && Waits(cfg, ss[n].reqs, waiter[x], x)
    ensures forall x, y | x in waiter && y in waiter && x != y :: waiter[x] != waiter[y]
  {
    RunSound(cfg, ss, ls, n);
    HoldsNoMoreThanWaits(cfg, ss[n], c);
    RunQueueBound(cfg, ss, ls, n, c);
    waiter := OneWaiterEach(cfg, ss[n], c);
  }

  lemma {:induction false} RunQueueBound(cfg: Config, ss: seq<Sys>, ls: seq<Label>, n: nat, c: nat)
    requires IsRun(cfg, ss, ls) && n < |ss| && c < |ss[n].chans|
    ensures |ss[n].chans[c].queue| < FETCH_QUEUE_SIZE
  {
    if n == 0 {
    } else {
      RunSound(cfg, ss, ls, n - 1);
      if c < |ss[n - 1].chans| {
        RunQueueBound(cfg, ss, ls, n - 1, c);
      }
      assert Goes(cfg, ss, ls, n - 1);
      StepQueueBound(cfg, ss[n - 1], ls[n - 1], c);
    }
  }

  lemma StepQueueBound(cfg: Config, s: Sys, l: Label, c: nat)
    requires Good(cfg, s) && Enabled(cfg, s, l) && c < |Step(cfg, s, l).chans|
    requires c < |s.chans| ==> |s.chans[c].queue| < FETCH_QUEUE_SIZE
    ensures |Step(cfg, s, l).chans[c].queue| < FETCH_QUEUE_SIZE
  {
    if OfFetch(l) {
      AdvancesSlot(cfg, s, l);
    } else if l.Reject? || l.Bug? || l.Serve? {
      PopsHead(cfg, s, l);
    } else if OfRead(l) || OfWrite(l) || OfFlush(l) {
      TouchesOne(cfg, s, l);
    } else if l.Ring? {
      RingsOnly(cfg, s, l);
    }
  }

  /** Reads in flight stay within their limit, and so do the entries of the io_uring. */
  lemma RingNeverFull(cfg: Config, ss: seq<Sys>, ls: seq<Label>, n: nat, c: nat)
    requires IsRun(cfg, ss, ls) && n < |ss| && c < |ss[n].chans|
    ensures ss[n].chans[c].activeReads == |ReadSet(ss[n].reqs, c)| <= 24
    ensures RingEntries(ss[n], c) <= 32 && |ss[n].chans[c].slots| == 8
  {
    RunSound(cfg, ss, ls, n);
    assert ChanShape(cfg, ss[n].chans[c], |ss[n].reqs|);
    RingHasRoom(cfg, ss[n], c);
  }

  /** The io_uring always has an entry for a read that got its buffer, and for a fetch that starts. */
  lemma RingHasEntry(cfg: Config, ss: seq<Sys>, ls: seq<Label>, n: nat, c: nat)
    requires IsRun(cfg, ss, ls) && n < |ls| && c < |ss[n].chans|
    requires || (ls[n].GetBuf? && ls[n].i < |ss[n].reqs| && ss[n].reqs[ls[n].i].chan == c)
             || (ls[n].StartFetch? && ls[n].c == c)
    ensures RingEntries(ss[n], c) < 32
  {
    RunSound(cfg, ss, ls, n);
    assert Goes(cfg, ss, ls, n);
    NeedsEntry(cfg, ss[n], ls[n], c);
    RingHasRoom(cfg, ss[n], c);
  }

  lemma NeedsEntry(cfg: Config, s: Sys, l: Label, c: nat)
    requires Shape(cfg, s) && Enabled(cfg, s, l) && c < |s.chans|
    ensures l.GetBuf? && s.reqs[l.i].chan == c ==>
              exists i :: 0 <= i < |s.reqs| && s.reqs[i].chan == c && s.reqs[i].phase.Buffering?
    ensures l.StartFetch? && l.c == c ==> exists k :: 0 <= k < |s.chans[c].slots| && s.chans[c].slots[k].Free?
  {
    if l.StartFetch? && l.c == c {
      assert s.chans[c].slots[l.k].Free?;
    }
  }

  /** No request completes twice, and the completed ones are exactly those in the list of completions. */
  lemma CompletesOnce(cfg: Config, ss: seq<Sys>, ls: seq<Label>, n: nat)
    requires IsRun(cfg, ss, ls) && n < |ss|
    ensures Distinct(ss[n].hist.done)
    ensures forall i: nat | i < |ss[n].reqs| :: i in ss[n].hist.done <==> Completed(ss[n].reqs[i].phase)
  {
    RunSound(cfg, ss, ls, n);
  }

  /** The fetches that all channels started are those that fetched their stripe, failed it, or are active. */
  lemma FetchesAddUp(cfg: Config, ss: seq<Sys>, ls: seq<Label>, n: nat)
    requires IsRun(cfg, ss, ls) && n < |ss|
    ensures Ended(ss[n].chans) == ss[n].fetched - ss[n].hist.loaded + FailedCount(ss[n].status)
  {
    RunSound(cfg, ss, ls, n);
  }

  // ---------------------------------------------------------------- progress

  /** Nothing that does work is enabled. */
  ghost predicate Quiescent(cfg: Config, s: Sys)
    requires Shape(cfg, s)
  {
    forall l | Works(l) :: !Enabled(cfg, s, l)
  }

  /** With room in the rings, when no working step is enabled no request waits on any channel. */
  lemma IdleOnlyWhenDrained(cfg: Config, ss: seq<Sys>, ls: seq<Label>, most: nat, n: nat)
    requires IsRun(cfg, ss, ls) && WaitAtMost(ss, most) && HasRoom(cfg, most) && n < |ss|
    requires Shape(cfg, ss[n]) && Quiescent(cfg, ss[n])
    ensures forall c | 0 <= c < |ss[n].chans| :: ss[n].chans[c].io == []
  {
    RoomServes(cfg, ss, ls, most, n);
  }

  /**
   With room in the rings, when no working step is enabled the requests not completed are exactly the lost
   and the stranded ones.
   */
  lemma IdleOnlyWhenAnswered(cfg: Config, ss: seq<Sys>, ls: seq<Label>, most: nat, n: nat, i: nat)
    requires IsRun(cfg, ss, ls) && WaitAtMost(ss, most) && HasRoom(cfg, most) && n < |ss| && i < |ss[n].reqs|
    requires Shape(cfg, ss[n]) && Quiescent(cfg, ss[n])
    ensures i !in ss[n].hist.done <==> ss[n].reqs[i].phase.Lost? || Stranded(ss[n], i)
  {
    RunSound(cfg, ss, ls, n);
    IdleOnlyWhenDrained(cfg, ss, ls, most, n);
    if InFlight(ss[n].reqs[i].phase) && !Stranded(ss[n], i) {
      var l := InFlightEnabled(cfg, ss[n], i);
      assert false;
    }
  }

  /** How many of the steps from `m` to `n` do work. */
  function WorkDone(ls: seq<Label>, m: nat, n: nat): nat
    requires m <= n <= |ls|
    decreases n
  {
    if m == n then 0 else WorkDone(ls, m, n - 1) + if Works(ls[n - 1]) then 1 else 0
  }

  /** From `s` to `t` the work to be done does not grow, and shrinks if the step does work. */
  ghost predicate WorksOff(cfg: Config, s: Sys, l: Label, t: Sys) {
    0 < cfg.stripeBlocks && Measure(cfg, t) + (if Works(l) then 1 else 0) <= Measure(cfg, s)
  }

  lemma {:induction false} CountsDown(cfg: Config, ss: seq<Sys>, ls: seq<Label>, m: nat, n: nat)
    requires 0 < cfg.stripeBlocks && m <= n < |ss| == |ls| + 1
    requires forall k | m <= k < n :: WorksOff(cfg, ss[k], ls[k], ss[k + 1])
    ensures WorkDone(ls, m, n) + Measure(cfg, ss[n]) <= Measure(cfg, ss[m])
    decreases n
  {
    if m == n {
    } else {
      CountsDown(cfg, ss, ls, m, n - 1);
      assert WorksOff(cfg, ss[n - 1], ls[n - 1], ss[n]);
    }
  }

  /**
   Without new requests and crashes the working steps are at most as many as there is work, whatever comes
   between.
   */
  lemma WorkRunsOut(cfg: Config, ss: seq<Sys>, ls: seq<Label>, m: nat, n: nat)
    requires IsRun(cfg, ss, ls) && m <= n < |ss| && forall k | m <= k < n :: !ls[k].Submit? && !ls[k].Crash?
    ensures WorkDone(ls, m, n) + Measure(cfg, ss[n]) <= Measure(cfg, ss[m])
  {
    forall k | m <= k < n
      ensures WorksOff(cfg, ss[k], ls[k], ss[k + 1])
    {
      RunSound(cfg, ss, ls, k);
      assert Goes(cfg, ss, ls, k);
      OneStepOfWork(cfg, ss[k], ls[k]);
    }
    CountsDown(cfg, ss, ls, m, n);
  }

  lemma OneStepOfWork(cfg: Config, s: Sys, l: Label)
    requires Good(cfg, s) && Enabled(cfg, s, l) && !l.Submit? && !l.Crash?
    ensures WorksOff(cfg, s, l, Step(cfg, s, l))
  {
    if Works(l) {
      WorkShrinks(cfg, s, l);
    } else {
      WorkNeverGrows(cfg, s, l);
    }
  }

  lemma {:induction false} WaitingWeighs(reqs: seq<Io>, i: nat)
    requires i < |reqs| && reqs[i].phase.Waiting?
    ensures RequestsWeight(reqs) > 0
  {
    if i == |reqs| - 1 {
    } else {
      WaitingWeighs(reqs[..|reqs| - 1], i);
    }
  }

  /**
   Every waiting request leaves its list. From moment `m` on, as long as no request arrives and nothing crashes,
   something can be done while a request waits; and once as many working steps were taken as there was work at `m`,
   whatever came between them, no request waits.
   */
  lemma EveryWaiterLeaves(cfg: Config, ss: seq<Sys>, ls: seq<Label>, most: nat, m: nat, n: nat)
    requires IsRun(cfg, ss, ls) && WaitAtMost(ss, most) && HasRoom(cfg, most) && m <= n < |ss|
    requires forall k | m <= k < n :: !ls[k].Submit? && !ls[k].Crash?
    ensures Shape(cfg, ss[n]) && Serving(cfg, ss[n]) && WorkDone(ls, m, n) <= Measure(cfg, ss[m])
    ensures WorkDone(ls, m, n) == Measure(cfg, ss[m]) ==> forall c | 0 <= c < |ss[n].chans| :: ss[n].chans[c].io == []
  {
    RoomServes(cfg, ss, ls, most, n);
    WorkRunsOut(cfg, ss, ls, m, n);
    RunSound(cfg, ss, ls, n);
    forall c | WorkDone(ls, m, n) == Measure(cfg, ss[m]) && 0 <= c < |ss[n].chans|
      ensures ss[n].chans[c].io == []
    {
      if ss[n].chans[c].io != [] {
        assert ChanOrder(ss[n].chans[c], c, ss[n].reqs);
        WaitingWeighs(ss[n].reqs, ss[n].chans[c].io[0]);
        assert false;
      }
    }
  }

  /** From every reachable state in which stripes in flight are held, working steps alone empty all lists. */
  lemma {:induction false} Drains(cfg: Config, s: Sys, ls: seq<Label>, u: Sys) returns (ms: seq<Label>, t: Sys)
    requires Took(cfg, s, ls, u) && HeldAll(u.status, u.chans) && forall k | 0 <= k < |ls| :: Works(ls[k])
    requires Shape(cfg, u)
    ensures Took(cfg, s, ms, t) && forall k | 0 <= k < |ms| :: Works(ms[k])
    ensures forall c | 0 <= c < |t.chans| :: t.chans[c].io == []
    decreases Measure(cfg, u)
  {
    if c :| 0 <= c < |u.chans| && u.chans[c].io != [] {
      var l, v := DrainsOne(cfg, s, ls, u, c);
      ms, t := Drains(cfg, s, ls + [l], v);
    } else {
      ms, t := ls, u;
    }
  }

  lemma DrainsOne(cfg: Config, s: Sys, ls: seq<Label>, u: Sys, c: nat) returns (l: Label, v: Sys)
    requires Took(cfg, s, ls, u) && Shape(cfg, u) && HeldAll(u.status, u.chans) && c < |u.chans| && u.chans[c].io != []
    ensures Works(l) && Took(cfg, s, ls + [l], v) && Shape(cfg, v) && HeldAll(v.status, v.chans)
    ensures Measure(cfg, v) < Measure(cfg, u)
  {
    ReachableSound(cfg, u);
    l := WorkEnabled(cfg, u, c);
    v := Step(cfg, u, l);
    WorkHolds(cfg, u, l);
    WorkShrinks(cfg, u, l);
    TookOne(cfg, s, ls, u, l);
    ReachableShape(cfg, v);
  }

  lemma WorkHolds(cfg: Config, s: Sys, l: Label)
    requires Good(cfg, s) && Fetches(cfg, s) && HeldAll(s.status, s.chans) && Enabled(cfg, s, l) && Works(l)
    ensures HeldAll(Step(cfg, s, l).status, Step(cfg, s, l).chans)
  {
    assert !Overflows(cfg, s, l);
    FetchesStep(cfg, s, l);
  }
}
