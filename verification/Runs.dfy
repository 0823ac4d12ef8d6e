/** The invariant of every reachable state, and what it means for whole runs. */
module Runs {
  import opened Types
  import opened Metadata
  import opened Protocol
  import opened Order
  import opened Ownership
  import opened Refinement
  import opened Placement
  import opened Headers
  import opened Durability
  import opened Staleness
  import opened Resources
  import opened Progress

  /** Holds in every reachable state, whatever the configuration. */
  ghost predicate Sound(cfg: Config, s: Sys) {
    && Good(cfg, s) && Fetches(cfg, s) && Flagging(s)
    && ReadsCounted(s.chans, s.reqs) && CompletedOnce(s.reqs, s.hist.done) && FetchesConserved(s)
    && Fitting(cfg, s.status, s.chans)
  }

  /** Holds as well if no stripe with blocks on both sides of the end of the image can be copied. */
  ghost predicate Durable(cfg: Config, s: Sys) {
    Sound(cfg, s) && Placed(cfg, s) && Keeping(cfg, s)
  }

  /** Holds as well if no stripe that straddles the end of the image file can be copied. */
  ghost predicate Faithful(cfg: Config, s: Sys) {
    Durable(cfg, s) && Mirrors(cfg, s) && Clean(cfg, s)
  }

  lemma InitSound(cfg: Config)
    requires ConfigOk(cfg)
    ensures Sound(cfg, Init(cfg))
  {
    CountNone(Cleared());
    FailedNone(Init(cfg).status);
  }

  lemma InitFaithful(cfg: Config)
    requires ConfigOk(cfg)
    ensures Faithful(cfg, Init(cfg))
  {
    InitSound(cfg);
  }

  lemma SoundStep(cfg: Config, s: Sys, l: Label)
    requires Sound(cfg, s) && Enabled(cfg, s, l)
    ensures Sound(cfg, Step(cfg, s, l))
  {
    GoodStep(cfg, s, l);
    FetchesStep(cfg, s, l);
    FlaggingStep(cfg, s, l);
    ReadsStep(cfg, s, l);
    CompletesStep(cfg, s, l);
    ConservedStep(cfg, s, l);
    FittingStep(cfg, s, l);
  }

  lemma DurableStep(cfg: Config, s: Sys, l: Label)
    requires Durable(cfg, s) && TailApart(cfg) && Enabled(cfg, s, l)
    ensures Durable(cfg, Step(cfg, s, l))
  {
    SoundStep(cfg, s, l);
    PlacedStep(cfg, s, l);
    KeepingStep(cfg, s, l);
  }

  lemma FaithfulStep(cfg: Config, s: Sys, l: Label)
    requires Faithful(cfg, s) && CopiesExact(cfg) && Enabled(cfg, s, l)
    ensures Faithful(cfg, Step(cfg, s, l))
  {
    ExactKeepsApart(cfg);
    DurableStep(cfg, s, l);
    MirrorsStep(cfg, s, l);
    CleanStep(cfg, s, l);
  }

  /** Every state of every run is sound; no run ever leaves the shape of states. */
  lemma {:induction false} RunSound(cfg: Config, ss: seq<Sys>, ls: seq<Label>, n: nat)
    requires IsRun(cfg, ss, ls) && n < |ss|
    ensures Sound(cfg, ss[n])
  {
    if n == 0 {
      InitSound(cfg);
    } else {
      RunSound(cfg, ss, ls, n - 1);
      assert Goes(cfg, ss, ls, n - 1);
      SoundStep(cfg, ss[n - 1], ls[n - 1]);
    }
  }

  lemma {:induction false} RunDurable(cfg: Config, ss: seq<Sys>, ls: seq<Label>, n: nat)
    requires IsRun(cfg, ss, ls) && TailApart(cfg) && n < |ss|
    ensures Durable(cfg, ss[n])
  {
    if n == 0 {
      InitFaithful(cfg);
    } else {
      RunDurable(cfg, ss, ls, n - 1);
      assert Goes(cfg, ss, ls, n - 1);
      DurableStep(cfg, ss[n - 1], ls[n - 1]);
    }
  }

  lemma {:induction false} RunFaithful(cfg: Config, ss: seq<Sys>, ls: seq<Label>, n: nat)
    requires IsRun(cfg, ss, ls) && CopiesExact(cfg) && n < |ss|
    ensures Faithful(cfg, ss[n])
  {
    if n == 0 {
      InitFaithful(cfg);
    } else {
      RunFaithful(cfg, ss, ls, n - 1);
      assert Goes(cfg, ss, ls, n - 1);
      FaithfulStep(cfg, ss[n - 1], ls[n - 1]);
    }
  }

  /** The poller never meets a request whose stripe nobody asked for. */
  lemma BugBranchUnreachable(cfg: Config, ss: seq<Sys>, ls: seq<Label>, n: nat)
    requires IsRun(cfg, ss, ls) && n < |ls|
    ensures !ls[n].Bug?
  {
    RunSound(cfg, ss, ls, n);
    assert Goes(cfg, ss, ls, n);
    if ls[n].Bug? {
      NeverUnexpected(cfg, ss[n], ls[n].c);
    }
  }

  // ---------------------------------------------------------------- reachable states

  ghost predicate Reachable(cfg: Config, s: Sys) {
    exists ss, ls :: IsRun(cfg, ss, ls) && ss[|ls|] == s
  }

  lemma ReachableInit(cfg: Config)
    requires ConfigOk(cfg)
    ensures Reachable(cfg, Init(cfg))
  {
    var ss, ls := [Init(cfg)], [];
    assert IsRun(cfg, ss, ls) && ss[|ls|] == Init(cfg);
  }

  lemma ReachableSound(cfg: Config, s: Sys)
    requires Reachable(cfg, s)
    ensures Sound(cfg, s)
    ensures CopiesExact(cfg) ==> Faithful(cfg, s)
  {
    var ss, ls :| IsRun(cfg, ss, ls) && ss[|ls|] == s;
    RunSound(cfg, ss, ls, |ls|);
    if CopiesExact(cfg) {
      RunFaithful(cfg, ss, ls, |ls|);
    }
  }

  /** Two series of steps, the second from where the first ends. */
  lemma Joined(cfg: Config, ss: seq<Sys>, ls: seq<Label>, us: seq<Sys>, ms: seq<Label>)
    requires AllGo(cfg, ss, ls) && AllGo(cfg, us, ms) && ss[|ls|] == us[0]
    ensures AllGo(cfg, ss + us[1..], ls + ms)
  {
    var ss', ls' := ss + us[1..], ls + ms;
    forall i: nat | i < |ls'|
      ensures Goes(cfg, ss', ls', i)
    {
      if i < |ls| {
        assert Goes(cfg, ss, ls, i);
        assert ss'[i] == ss[i] && ls'[i] == ls[i] && ss'[i + 1] == ss[i + 1];
      } else {
        assert Goes(cfg, us, ms, i - |ls|);
        assert ss'[i] == us[i - |ls|] && ls'[i] == ms[i - |ls|] && ss'[i + 1] == us[i - |ls| + 1];
      }
    }
  }

  lemma OneGoes(cfg: Config, s: Sys, l: Label)
    requires Shape(cfg, s) && Enabled(cfg, s, l)
    ensures AllGo(cfg, [s, Step(cfg, s, l)], [l])
  {
    assert Goes(cfg, [s, Step(cfg, s, l)], [l], 0);
  }

  lemma RunExtends(cfg: Config, ss: seq<Sys>, ls: seq<Label>, l: Label)
    requires IsRun(cfg, ss, ls) && Shape(cfg, ss[|ls|]) && Enabled(cfg, ss[|ls|], l)
    ensures IsRun(cfg, ss + [Step(cfg, ss[|ls|], l)], ls + [l])
  {
    var us := [ss[|ls|], Step(cfg, ss[|ls|], l)];
    OneGoes(cfg, ss[|ls|], l);
    Joined(cfg, ss, ls, us, [l]);
    assert us[1..] == [Step(cfg, ss[|ls|], l)];
  }

  lemma ReachableStep(cfg: Config, s: Sys, l: Label)
    requires Reachable(cfg, s) && Shape(cfg, s) && Enabled(cfg, s, l)
    ensures Reachable(cfg, Step(cfg, s, l)) && Shape(cfg, Step(cfg, s, l))
  {
    var ss, ls :| IsRun(cfg, ss, ls) && ss[|ls|] == s;
    RunExtends(cfg, ss, ls, l);
    assert (ss + [Step(cfg, s, l)])[|ls + [l]|] == Step(cfg, s, l);
    ReachableSound(cfg, Step(cfg, s, l));
  }
}
