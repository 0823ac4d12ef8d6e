/** The state shared by all channels, and the callbacks that work on it alone. */
module Bdev {
  import opened Types
  import opened Metadata
  import opened Protocol
  import opened Headers
  import opened Runs
  import opened Traces

  /** How the creation of a bdev ends. */
  datatype Outcome = Ready | Einval | Eio

  /** What a flush callback does next: complete the request, go on with the metadata, or nothing at all. */
  datatype FlushNext = CompleteWith(ok: bool) | WriteMetadata | FlushMetadata | Nothing

  /** The part of a flush request's I/O context that its callbacks use. */
  class FlushIo {
    var stripesFetched: nat
    constructor ()
    {
      stripesFetched := 0;
    }
  }

  lemma TookCrash(cfg: Config, s: Sys)
    requires Reachable(cfg, s) && Shape(cfg, s)
    ensures Load(MetaBytes(cfg, s.disk.durMeta)).Loaded? && |Load(MetaBytes(cfg, s.disk.durMeta)).status| == MAX_STRIPES
    ensures Took(cfg, s, [Crash], CrashStep(cfg, s, Load(MetaBytes(cfg, s.disk.durMeta))))
  {
    Reloads(cfg, s.disk.durMeta);
    TookFirst(cfg, s, Crash);
  }

  lemma TookDataFlushDone(cfg: Config, s: Sys, i: nat, ok: bool, accepted: bool)
    requires Reachable(cfg, s) && Shape(cfg, s) && Enabled(cfg, s, DataFlushDone(i, ok, accepted))
    ensures |s.reqs[i].mark| == |s.hist.floor|
    ensures Took(cfg, s, [DataFlushDone(i, ok, accepted)], DataFlushDoneStep(s, i, ok, accepted))
  {
    assert IoShape(cfg, s.reqs[i], |s.chans|);
    TookFirst(cfg, s, DataFlushDone(i, ok, accepted));
  }

  lemma TookMetaWriteDone(cfg: Config, s: Sys, i: nat, ok: bool, accepted: bool)
    requires Reachable(cfg, s) && Shape(cfg, s) && Enabled(cfg, s, MetaWriteDone(i, ok, accepted))
    ensures Took(cfg, s, [MetaWriteDone(i, ok, accepted)], MetaWriteDoneStep(s, i, ok, accepted))
  {
    TookFirst(cfg, s, MetaWriteDone(i, ok, accepted));
  }

  lemma TookMetaFlushDone(cfg: Config, s: Sys, i: nat, ok: bool)
    requires Reachable(cfg, s) && Shape(cfg, s) && Enabled(cfg, s, MetaFlushDone(i, ok))
    ensures |s.reqs[i].mark| == |s.hist.floor|
    ensures Took(cfg, s, [MetaFlushDone(i, ok)], MetaFlushDoneStep(s, i, ok))
  {
    assert IoShape(cfg, s.reqs[i], |s.chans|);
    TookFirst(cfg, s, MetaFlushDone(i, ok));
  }

  class UbiBdev {
    const cfg: Config
    const stripeStatus: array<Status>
    const stripeHeaders: array<bool>
    var stripesFetched: nat
    var stripesFlushed: nat

    ghost predicate Valid() {
      0 < cfg.stripeBlocks && stripeStatus.Length == stripeHeaders.Length == MAX_STRIPES
    }

    /** This object holds the shared state of `s`. */
    ghost predicate Tracks(s: Sys)
      reads this, stripeStatus, stripeHeaders
    {
      && Valid()
      && s.status == stripeStatus[..] && s.headers == stripeHeaders[..]
      && s.fetched == stripesFetched && s.flushed == stripesFlushed
    }

    /** Freshly allocated memory is all zeroes. */
    constructor (cfg: Config)
      requires 0 < cfg.stripeBlocks
      ensures Valid() && this.cfg == cfg && fresh(stripeStatus) && fresh(stripeHeaders)
      ensures stripeStatus[..] == StatusOf(Cleared()) && stripeHeaders[..] == Cleared()
      ensures stripesFetched == stripesFlushed == 0
    {
      this.cfg := cfg;
      stripeStatus := new Status[MAX_STRIPES](_ => NotFetched);
      stripeHeaders := new bool[MAX_STRIPES](_ => false);
      stripesFetched, stripesFlushed := 0, 0;
    }

    /** `ubi_set_stripe_status`. */
    method SetStripeStatus(x: nat, st: Status)
      requires Valid() && x < MAX_STRIPES
      modifies stripeStatus, stripeHeaders
      ensures stripeStatus[..] == old(stripeStatus[..])[x := st]
      ensures stripeHeaders[..] == if st == Fetched then old(stripeHeaders[..])[x := true] else old(stripeHeaders[..])
    {
      stripeStatus[x] := st;
      if st == Fetched {
        stripeHeaders[x] := true;
      }
    }

    /** `ubi_new_disk`. */
    static method IsNewDisk(magic: seq<Byte>) returns (zeroed: bool)
      requires |magic| == MAGIC_SIZE
      ensures zeroed <==> forall i | 0 <= i < MAGIC_SIZE :: magic[i] == 0
    {
      for i := 0 to MAGIC_SIZE
        invariant forall j | 0 <= j < i :: magic[j] == 0
      {
        if magic[i] != 0 {
          return false;
        }
      }
      return true;
    }

    /** `ubi_finish_read_metadata`: if the region could be read, it decides what the new bdev starts from. */
    method FinishReadMetadata(success: bool, region: seq<Byte>) returns (r: Outcome)
      requires Valid() && |region| == METADATA_SIZE
      requires stripeStatus[..] == StatusOf(Cleared()) && stripesFetched == stripesFlushed == 0
      modifies this, stripeStatus, stripeHeaders
      ensures r == if !success then Eio else if Blank(region) || Ours(region) then Ready else Einval
      ensures r.Ready? ==> Restored(region, stripeStatus[..], stripeHeaders[..], stripesFetched, stripesFlushed)
      ensures r.Ready? ==>
                && Load(region).Loaded?
                && stripeStatus[..] == Load(region).status && stripeHeaders[..] == Load(region).flags
                && stripesFetched == Load(region).stripesFetched && stripesFlushed == Load(region).stripesFlushed
    {
      LoadedIff(region);
      if !success {
        return Eio;
      }
      forall i | 0 <= i < MAX_STRIPES {
        stripeHeaders[i] := region[HEADERS_OFFSET + 2 * i] != 0;
      }
      assert stripeHeaders[..] == Flags(region);
      var isNew := IsNewDisk(region[..MAGIC_SIZE]);
      if isNew {
        return Ready;
      }
      assert !NewDisk(region);
      if region[..MAGIC_SIZE] != MAGIC {
        return Einval;
      }
      if LoadShort(region[MAJOR_OFFSET..MINOR_OFFSET]) != VERSION_MAJOR
         || LoadShort(region[MINOR_OFFSET..SIZE_OFFSET]) != VERSION_MINOR {
        return Einval;
      }
      CountFlags();
      return Ready;
    }

    /** The loop over the stripe headers. */
    method CountFlags()
      requires Valid() && stripesFetched == stripesFlushed == 0
      modifies this, stripeStatus
      ensures stripeStatus[..] == StatusOf(stripeHeaders[..])
      ensures stripesFetched == stripesFlushed == Count(stripeHeaders[..])
    {
      var i := 0;
      while i < MAX_STRIPES
        invariant i <= MAX_STRIPES
        invariant forall j | 0 <= j < i :: stripeStatus[j] == if stripeHeaders[j] then Fetched else NotFetched
        invariant stripesFetched == stripesFlushed == Count(stripeHeaders[..i])
      {
        var fetched := stripeHeaders[i];
        stripeStatus[i] := if fetched then Fetched else NotFetched;
        if fetched {
          stripesFetched := stripesFetched + 1;
          stripesFlushed := stripesFlushed + 1;
        }
        assert stripeHeaders[..i + 1][..i] == stripeHeaders[..i];
        i := i + 1;
      }
      assert stripeHeaders[..i] == stripeHeaders[..];
    }

    /** A new bdev, with what the metadata region holds if that is accepted. */
    static method Create(cfg: Config, region: seq<Byte>) returns (r: Outcome, bdev: UbiBdev)
      requires 0 < cfg.stripeBlocks && |region| == METADATA_SIZE
      ensures fresh(bdev) && fresh(bdev.stripeStatus) && fresh(bdev.stripeHeaders)
      ensures bdev.Valid() && bdev.cfg == cfg
      ensures r == if Load(region).Loaded? then Ready else Einval
      ensures r.Ready? ==> Load(region) == Loaded(bdev.stripeStatus[..], bdev.stripeHeaders[..],
                                                  bdev.stripesFetched, bdev.stripesFlushed)
    {
      LoadedIff(region);
      bdev := new UbiBdev(cfg);
      r := bdev.FinishReadMetadata(true, region);
    }

    /** A bdev created on a base device with a zeroed metadata region starts as every run does. */
    static method CreateNew(cfg: Config, region: seq<Byte>) returns (bdev: UbiBdev)
      requires ConfigOk(cfg) && region == Zeros(METADATA_SIZE)
      ensures fresh(bdev) && fresh(bdev.stripeStatus) && fresh(bdev.stripeHeaders) && bdev.cfg == cfg
      ensures bdev.Tracks(Init(cfg)) && Reachable(cfg, Init(cfg))
    {
      LoadZeroed();
      var r;
      r, bdev := Create(cfg, region);
      ReachableInit(cfg);
    }

    /**
     A bdev created again after a crash in state `s`, with what the medium then holds, starts as the crash
     step says.
     */
    static method Recreate(cfg: Config, region: seq<Byte>, ghost s: Sys) returns (bdev: UbiBdev)
      requires Reachable(cfg, s) && Shape(cfg, s) && region == MetaBytes(cfg, s.disk.durMeta)
      ensures fresh(bdev) && fresh(bdev.stripeStatus) && fresh(bdev.stripeHeaders) && bdev.cfg == cfg
      ensures Load(region).Loaded? && |Load(region).status| == MAX_STRIPES
      ensures bdev.Tracks(CrashStep(cfg, s, Load(region)))
      ensures Took(cfg, s, [Crash], CrashStep(cfg, s, Load(region)))
    {
      Reloads(cfg, s.disk.durMeta);
      var r;
      r, bdev := Create(cfg, region);
      TookCrash(cfg, s);
    }

    // ---------------------------------------------------------------- flush callbacks

    /** `ubi_data_flush_completion`; `accepted` is the answer to submitting the metadata write. */
    method DataFlushCompletion(io: FlushIo, ok: bool, accepted: bool, ghost s: Sys, ghost i: nat)
      returns (next: FlushNext)
      requires Tracks(s) && Reachable(cfg, s) && Shape(cfg, s) && Enabled(cfg, s, DataFlushDone(i, ok, accepted))
      modifies io
      ensures |s.reqs[i].mark| == |s.hist.floor| && Tracks(DataFlushDoneStep(s, i, ok, accepted))
      ensures Took(cfg, s, [DataFlushDone(i, ok, accepted)], DataFlushDoneStep(s, i, ok, accepted))
      ensures var p := DataFlushDoneStep(s, i, ok, accepted).reqs[i].phase;
              match next
              case Nothing => p.Lost?
              case CompleteWith(done) => if done then p.FlushOk? else p.Error?
              case WriteMetadata => p.MetaWrite? && p.snap == io.stripesFetched
              case FlushMetadata => false
    {
      TookDataFlushDone(cfg, s, i, ok, accepted);
      if !ok {
        return Nothing;
      }
      if stripesFetched == stripesFlushed {
        return CompleteWith(true);
      }
      io.stripesFetched := stripesFetched;
      if !accepted {
        return CompleteWith(false);
      }
      return WriteMetadata;
    }

    /** `ubi_metadata_write_completion`; `accepted` is the answer to submitting the metadata flush. */
    method MetadataWriteCompletion(io: FlushIo, ok: bool, accepted: bool, ghost s: Sys, ghost i: nat)
      returns (next: FlushNext)
      requires Tracks(s) && Reachable(cfg, s) && Shape(cfg, s) && Enabled(cfg, s, MetaWriteDone(i, ok, accepted))
      requires s.reqs[i].phase.snap == io.stripesFetched
      ensures Tracks(MetaWriteDoneStep(s, i, ok, accepted))
      ensures Took(cfg, s, [MetaWriteDone(i, ok, accepted)], MetaWriteDoneStep(s, i, ok, accepted))
      ensures var p := MetaWriteDoneStep(s, i, ok, accepted).reqs[i].phase;
              if p.MetaFlush? then next == FlushMetadata && p.snap == io.stripesFetched
              else next == CompleteWith(false) && p.Error?
    {
      TookMetaWriteDone(cfg, s, i, ok, accepted);
      if !ok || !accepted {
        return CompleteWith(false);
      }
      return FlushMetadata;
    }

    /** `ubi_metadata_flush_completion`. */
    method MetadataFlushCompletion(io: FlushIo, ok: bool, ghost s: Sys, ghost i: nat) returns (next: FlushNext)
      requires Tracks(s) && Reachable(cfg, s) && Shape(cfg, s) && Enabled(cfg, s, MetaFlushDone(i, ok))
      requires s.reqs[i].phase.snap == io.stripesFetched
      modifies this`stripesFlushed
      ensures |s.reqs[i].mark| == |s.hist.floor| && Tracks(MetaFlushDoneStep(s, i, ok))
      ensures Took(cfg, s, [MetaFlushDone(i, ok)], MetaFlushDoneStep(s, i, ok))
      ensures next == CompleteWith(ok) && (MetaFlushDoneStep(s, i, ok).reqs[i].phase.FlushOk? <==> ok)
      ensures stripesFlushed
           == if ok && io.stripesFetched > old(stripesFlushed) then io.stripesFetched else old(stripesFlushed)
    {
      TookMetaFlushDone(cfg, s, i, ok);
      if !ok {
        return CompleteWith(false);
      }
      if io.stripesFetched > stripesFlushed {
        stripesFlushed := io.stripesFetched;
      }
      return CompleteWith(true);
    }
  }
}
