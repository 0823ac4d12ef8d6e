# bdev_ubi in Dafny

`bdev_ubi` is an SPDK block device that presents a read-only image as a writable disk. The image is
copied to a base device stripe by stripe, when a block of the stripe is first written (or read, with
`copy_on_read`). User requests, stripe fetches, flushes, completions and crashes interleave freely.
This project models that machinery and proves what it promises: the bdev is a plain disk with the
image already copied in, written data is read back, a flushed write survives every later crash, the
bounded structures hold what they must, waiting requests are served, and the layout arithmetic is consistent. Where a promise has an
edge, the edge is proved exactly: a reachable counterexample and the condition that excludes it.

Check it with `dafny verify dfyconfig.toml`.

## How the model is built

- **Protocol.** `Protocol.dfy` is a labelled step system. A state holds the status table, the
  in-memory stripe headers, the two counters, any number of channels, all requests, and the base
  device as a cache (`vol`) over a durable medium (`dur`). A label is one callback of the module or
  one step of its environment. Labels carry what the environment decides, so `Step` is a function and
  `IsRun` fixes a run from a new disk by its labels. A write, read or flush of the base device takes
  effect block by block, in any order and interleaved with everything else; any cached block may
  become durable at any time (`Destage`); a crash may come between any two steps and reloads the
  metadata bytes from the medium. Runs are not bounded in channels, requests, steps or crashes. The ring
  of queued stripes is the code's: one entry more than fits makes it look empty (`Pushed`).
- **Polls and the io_uring.** A channel remembers whether a poll that found work has yet to end
  (`polling`) and which image reads are prepared but not submitted to the kernel (`prepared`). `Ring` is
  the submission at the end of such a poll; starting a fetch submits what is prepared as well. A poll
  that finds both lists empty submits nothing, and a read that was not submitted cannot complete.
- **Versions.** Each base block carries the number of the block write that produced it: 0 for the
  image or the initial contents, -1 for what was on the base device before a stripe was copied. The
  number is bookkeeping for the statements; no step looks at it.
- **Invariants.** `Order`, `Ownership`, `Headers`, `Resources`, `Refinement`, `Placement`, `Durability` and
  `Staleness` each state one invariant and prove that every step keeps it. `Runs` joins them.
  `CopyOnAccess`, `Blocks`, `CrashSafety`, `Counters`, `ReadBack`, `Persistence`, `Scheduling`, `Room`, `Fates` and
  `Limits` state the results over whole runs. `Scenarios` and `Overwrites` hold the pieces of the counterexamples.
- **The code's own form.** `StripeQueue.Queue`, `Bdev.UbiBdev` and `Channel.IoChannel` are classes with
  the fields, arrays and loops of the C structures. `Tracks` ties an object to a state of the protocol.
  Each callback, a submission and a whole poll are proved to perform protocol steps from a reachable state to
  a reachable state (`Took`), and creation to start from `Init` or from the state after a crash. So all
  results about runs hold of the objects. What the environment answers is a parameter.
- **What a poll may do.** `Polling` says which steps the poller of a channel takes (`OfPoll`), that any series of
  them keeps to that channel (`Kept`), and what a poll makes of every request (`Results`): those it takes off
  the list, oldest first, get the outcome that the stripe table and the environment's answers determine, image
  reads end as their completions say, and all others stay. `IoChannel.Poll` is proved to do just that (`Polled`).

Which label models which code:

- `Submit`: src/lib/bdev_ubi.c:502-534. `Open`: src/lib/bdev_ubi_io_channel.c:36-92.
- `StartFetch`: src/lib/bdev_ubi_io_channel.c:151-165. `FetchRead`: src/lib/bdev_ubi_stripe.c:39-70.
  `FetchDone`: src/lib/bdev_ubi_stripe.c:72-81.
- `Reject`, `Bug`, `Serve`: src/lib/bdev_ubi_io_channel.c:170-250. `Ring`: src/lib/bdev_ubi_io_channel.c:252-259.
- `GetBuf`: src/lib/bdev_ubi_io_channel.c:296-332. `ImageReadDone`: src/lib/bdev_ubi_io_channel.c:334-343.
  `BaseReadDone`, `WriteDone`: src/lib/bdev_ubi_io_channel.c:395-411.
- `DataFlushDone`, `MetaWriteDone`, `MetaFlushDone`: src/lib/bdev_ubi_flush.c:48-128.
- `FetchApply`, `BaseReadBlock`, `WriteApply`, `FlushBlock`, `MetaApply`, `MetaSettle`, `Destage`,
  `DestageMeta`: the base device. `Crash`: loss of the cache, then src/lib/bdev_ubi.c:222-264.

## What is assumed of the environment

- Callbacks are atomic. Requests are reads, writes and flushes within the device. SPDK splits requests at
  stripe boundaries (src/lib/bdev_ubi.c:179-180); submission still rejects a write, or a read with
  `copy_on_read`, that spans two, and the model has that branch. With `copy_on_read` off the code does not
  check reads, so there the split is an assumption (`RequestOk`).
- Image reads deliver what the file holds. What lies past its end, be it the rest of the last block, is
  whatever the buffer held (`Whole`).
- The base device accepts a whole-stripe write only if the stripe lies within the device. Accepted stripe
  writes succeed, since the code ignores their outcome (src/lib/bdev_ubi_stripe.c:72-80).
- A metadata write takes effect at one instant and stores the headers of that instant.
- A new disk has a zeroed metadata region. The bdev is created again after a crash with the same image
  and parameters.
- The image fits on the device and every stripe of the device has an entry in the status table
  (`ConfigOk`). `ConfigOkIff` says exactly for which parameters this holds, `AcceptedConfigOk` what is left to
  check once layout setup has accepted them, and `TableTooSmall` gives accepted parameters that violate it.

## Where the promises end

- *An image file that ends inside a stripe or a block.* The stripe that straddles the end is copied whole,
  over writes past the image that were acknowledged before (`LostWrite`), and with leftovers of a buffer in the
  blocks the file does not fill (`CopiedLeftovers`). With `copy_on_read` off, a read across the end returns
  such leftovers (`WrongRead`). The contents are those of a plain disk if and only if no straddling stripe fits
  on the device (`ContentPlainIff`), and reads cannot tell either if and only if, besides, `copy_on_read` is on
  or nothing straddles (`TransparentIffHarmless`). `HarmlessMeans` gives both conditions in sizes and options.
- *A stripe shared by the image and the blocks past it.* Its copy replaces even a flushed write past the image, on
  the medium too (`FlushedOverwritten`). Flushed writes survive crashes if and only if flushes are ignored or no
  shared stripe fits on the device (`KeepsFlushedIff`). Written data is read back within a session if and only if
  no shared stripe fits and, with `copy_on_read` off, there is none (`ReadsBackIff`); for flushed data over
  crashes the same, unless flushes are ignored (`ReadsFlushedBackIff`). A file that merely ends inside a block does
  no harm here. `ApartMeans` gives the conditions in sizes and options.
- *A full ring.* With 32768 writes to different stripes waiting on one channel the ring wraps onto its head:
  the stripes are in flight, nobody holds them, and nothing can be done (`Flood`, `FloodedStuck`). Waiting
  requests can always be served if and only if callers keep fewer than 32768 of them waiting on a channel or
  the image has fewer than 32768 stripes (`ServesIffRoom`; `HeldIffRoom` for the holders). Contents and
  durability do not depend on it.
- *Stranded reads.* A read whose buffer arrives after the poll, with both lists empty, is prepared and never
  submitted until the next request on its channel; the same after a failed submission (`StrandedExactly`,
  `StrandedUntilSubmit`). This can happen if and only if `copy_on_read` is off and there is an image
  (`StrandableIff`).
- *Lost requests.* A write that the base device refuses and a flush whose data flush fails are never completed
  (`LostExactly`, `LostForGood`, `RefusedWriteLost`, `FailedFlushLost`). Everything else is answered
  (`IdleOnlyWhenAnswered`).
- *A stripe that sticks out of the device.* The base device refuses its copy, so it is never fetched, and writes
  to its image blocks (with `copy_on_read` reads too) are never dispatched (`FetchableIffFits`, `UnfitNeverServed`).
- *A volatile cache.* A flush makes its own blocks durable but the headers of all fetched stripes, so a crash
  can expose base blocks from before the copy (`StaleBlock`). `NothingStaleIff` gives the exact condition.
- *Poller result.* `ubi_complete_image_io` returns the result of the last completion only, so a poll that
  completed several can report idle (`IoChannel.Poll`).
- *Documentation.* README.md shows a parameter `stripe_size_mb`; the code takes `stripe_size_kb`, stores its low
  byte in the metadata and never reads it back. The model follows the code.

## Model

"Exact copies" below means that no stripe straddling the end of the image file fits on the device. A stripe is
"shared" if it holds blocks of the image and blocks of the device past it.

| member | source | states |
|---|---|---|
| `CopyOnAccess.RefinesPlainDisk` | src/lib/bdev_ubi_io_channel.c:170-250 | with exact copies, in every state of every run each block of the bdev equals the session's starting disk with the block writes replayed; the first session starts from the image followed by the initial base contents |
| `CopyOnAccess.OnlyWritesChange` | src/lib/bdev_ubi_stripe.c:39-81 | with exact copies, no step of a fetch, read, flush or cache changes the contents of any block; a block write changes its own block, which lies between the first and last block of its request, to the data its request holds for that block |
| `Blocks.WriteIsWhole` | src/lib/bdev_ubi_io_channel.c:376-393 | a completed write of any run has written exactly the blocks from `start` to `start + count - 1`, each by a logged block write with the data at its place in the request |
| `Blocks.ReadIsWhole` | src/lib/bdev_ubi_io_channel.c:345-369 | a successful read of any run has returned exactly the blocks from `start` to `start + count - 1` |
| `CopyOnAccess.ReadWindow` | src/lib/bdev_ubi_io_channel.c:232-238 | the interval a completed read records is exactly the one from its dispatch to its completion |
| `CopyOnAccess.ReadSeesAnInstant` | src/lib/bdev_ubi_io_channel.c:296-366 | if the end of the image is harmless, each block of a successful read is what the bdev held at some moment between dispatch and completion, for both copy_on_read settings and whichever device served it |
| `CrashSafety.CrashPresentsRecovered` | src/lib/bdev_ubi.c:222-264 | a crash is recoverable in every reachable state and the new session presents exactly the durable contents chosen by the durable headers |
| `CrashSafety.RecoveryRestoresHeaders` | src/lib/bdev_ubi.c:252-263 | after a crash the fetched stripes are exactly those with a durable header, all others (in flight and failed ones too) are not fetched, and both counters are their number |
| `CrashSafety.MediumBytes` | src/lib/bdev_ubi.c:266-280 | at every moment of every run the durable metadata region is all zeroes, or holds the magic, version 0.1, the low byte of the stripe size, and for each stripe 1 exactly if its header is durable |
| `CrashSafety.FlushSurvivesCrashes` | src/lib/bdev_ubi_flush.c:26-128 | if no shared stripe fits, a write completed before a covering flush was submitted, and that flush successful: after any later crash, in any later session, the block holds that write or a later write to it |
| `Persistence.KeepsFlushedIff` | src/lib/bdev_ubi_flush.c:26-128 | every flushed write survives every later crash if and only if flushes are ignored or no shared stripe fits |
| `Persistence.FlushedOverwritten` | src/lib/bdev_ubi_stripe.c:52-69 | with flushes on, for every shared stripe that fits and every block of it past the image: a run in which the copy replaces a flushed write of the block on the medium |
| `Persistence.RunUnsynced` | src/lib/bdev_ubi_flush.c:26-46 | with flushes ignored, no flush is ever in flight or successful on the base device |
| `ReadBack.WrittenReadBack` | src/lib/bdev_ubi_io_channel.c:296-411 | if no shared stripe fits and reads cannot cross the end of the image uncopied: a read dispatched after a write of a block completed, in the same session, and successful returns that write's data or a later write's |
| `Persistence.ReadsBackIff` | src/lib/bdev_ubi_io_channel.c:296-411 | written data is read back within a session in all runs if and only if these two conditions hold |
| `ReadBack.FlushedReadBack` | src/lib/bdev_ubi_io_channel.c:296-343 | under the same conditions, every successful read of a flushed block dispatched after the flush, in any later session, returns that write's data or a later write's |
| `Persistence.ReadsFlushedBackIff` | src/lib/bdev_ubi_io_channel.c:296-343 | flushed data is read back in all runs, over crashes, if and only if flushes are ignored or these two conditions hold |
| `Persistence.ApartMeans` | src/lib/bdev_ubi.c:369-375 | the two conditions in terms of sizes and options a caller knows, both directions |
| `CrashSafety.FlushedHeadersDurable` | src/lib/bdev_ubi_flush.c:48-128 | a successful flush leaves durable, for ever, the header of every stripe fetched when its data flush completed, however flushes interleave |
| `CrashSafety.FlushedNeverDecreases` | src/lib/bdev_ubi_flush.c:123-125 | within a session stripes_flushed never decreases and never exceeds stripes_fetched |
| `CrashSafety.CountersBracketHeaders` | src/lib/bdev_ubi_flush.c:62-65 | durable headers are included in those in memory, the counters bracket their numbers, and equal counters mean equal header sets, so skipping the metadata write is safe |
| `Counters.FlushedIs` | src/lib/bdev_ubi_flush.c:109-128 | at every moment stripes_flushed is the maximum of the stripes loaded at the start of the session and the stripes each successful flush made durable |
| `Counters.SkipsMetadataIff` | src/lib/bdev_ubi_flush.c:62-74 | a data flush that ends well completes its flush at once if and only if all headers fetched by now were loaded, or made durable by one earlier flush of the session |
| `Counters.FlushedAgainAtOnce` | src/lib/bdev_ubi_flush.c:48-128 | if no stripe becomes fetched after the data flush of a successful flush completed, every later data flush of the session that ends well completes its flush at once |
| `CrashSafety.CrashExposesNothingStale` | src/lib/bdev_ubi_stripe.c:110-117 | with exact copies, on a base device without a cache (or where nothing can go stale) a crash at any step leaves each block with its image or initial contents or with a value written to it |
| `Limits.HarmlessMeans` | src/lib/bdev_ubi.c:526-530 | the conditions on the end of the image file in terms of sizes and options a caller knows, both directions |
| `Limits.LostWrite` | src/lib/bdev_ubi_stripe.c:59-61 | for every straddling stripe that fits and every block of it past the image: a reachable state in which an acknowledged write has been overwritten by the copy |
| `Limits.CopiedLeftovers` | src/lib/bdev_ubi_stripe.c:44-61 | for every straddling stripe that fits: a reachable state in which a block nobody wrote, be it the partial last block of the image, holds leftovers |
| `Limits.WrongRead` | src/lib/bdev_ubi_io_channel.c:316-343 | with copy_on_read off, for every straddling stripe: a reachable successful read that returns leftovers |
| `Limits.ContentPlainIff` | src/lib/bdev_ubi_stripe.c:39-81 | in all reachable states the contents are those of the plain disk if and only if copies are exact |
| `Limits.TransparentIffHarmless` | src/lib/bdev_ubi_io_channel.c:217-343 | contents and completed reads are those of the plain disk if and only if straddling stripes can be neither copied nor read uncopied |
| `Limits.FetchableIffFits` | src/lib/bdev_ubi_stripe.c:59-67 | a stripe of the image can ever become fetched if and only if its last block number is below the number of blocks of the device |
| `Limits.RefusedWriteLost` | src/lib/bdev_ubi_io_channel.c:239-242 | a reachable state with a write that is neither in flight nor completed |
| `Limits.FailedFlushLost` | src/lib/bdev_ubi_flush.c:55-60 | for every flush, unless flushes are ignored, a reachable state in which it is neither in flight nor completed |
| `Limits.LateBufferStrands` | src/lib/bdev_ubi_io_channel.c:125-133 | for every read of the image with copy_on_read off, a reachable state in which it is prepared and no poll will submit it |
| `Limits.StrandableIff` | src/lib/bdev_ubi_io_channel.c:310-331 | reads can be stranded if and only if copy_on_read is off and there is an image |
| `Limits.StaleBlock` | src/lib/bdev_ubi_flush.c:70-73 | whenever something can go stale, for every flush that misses block 0: a reachable state, after its success, in which a crash exposes the old base contents |
| `Limits.NothingStaleIff` | src/lib/bdev_ubi_flush.c:26-80 | with exact copies, crashes expose nothing stale if and only if the base has no cache, flushes are ignored, there is no image, or no stripe can be copied |
| `Room.FloodedStuck` | src/lib/bdev_ubi_stripe.c:89-93 | after 32768 unpolled writes to different stripes these are in flight, held by no queue or slot, and no working step is enabled |
| `Room.Flood` | src/lib/bdev_ubi.c:526-533 | on every image with more than 32767 stripes, runs of up to 32768 such submissions exist |
| `Room.ServesIffRoom` | src/lib/bdev_ubi_io_channel.c:151-197 | for every bound on waiting requests: in all runs within it a waiting request leaves something to be done, if and only if the bound is below 32768 or the image has fewer than 32768 stripes |
| `Room.HeldIffRoom` | src/lib/bdev_ubi_stripe.c:89-104 | for every bound on waiting requests: in all runs within it every stripe in flight is held, under the same condition and no other |
| `Scheduling.FetchedByOneHolder` | src/lib/bdev_ubi_io_channel.c:138-165 | in all runs only stripes in flight are held by a queue entry or slot and no two hold the same; with room in the rings a stripe is in flight if and only if it is held |
| `Scheduling.StatusMovesOn` | src/lib/bdev_ubi_stripe.c:72-87 | within a session a stripe never goes back in status |
| `Fates.StatusSteps` | src/lib/bdev_ubi_stripe.c:72-117 | in one step a stripe goes from not fetched only to in flight and only by a submission, from there to fetched only when its copy is complete, to failed only by a failed image read or refused copy |
| `Scheduling.EnqueuedOnce` | src/lib/bdev_ubi.c:526-530 | in a session a stripe enters a queue at most once, on one channel |
| `Runs.BugBranchUnreachable` | src/lib/bdev_ubi_io_channel.c:198-214 | no run takes the branch for a request whose stripe was never enqueued |
| `Scheduling.ServedInOrder` | src/lib/bdev_ubi_io_channel.c:170-222 | what has left a channel's list is a prefix of what entered it, in submission order, and the list is the rest |
| `Scheduling.QueueNeverFull` | src/lib/bdev_ubi_stripe.c:89-93 | a queue never has 32768 entries, queued stripes and busy slots never outnumber the waiting requests, and each held stripe has a waiting request of its own |
| `Scheduling.RingNeverFull` | src/lib/bdev_ubi_io_channel.c:403-411 | active_reads is the number of reads in flight and at most 24, the io_uring never holds more than 32 entries, and a channel has 8 slots |
| `Scheduling.RingHasEntry` | src/lib/bdev_ubi_io_channel.c:318-330 | the io_uring has a free entry whenever a read with a buffer or a fetch needs one |
| `Scheduling.CompletesOnce` | src/lib/bdev_ubi_io_channel.c:403-411 | no request completes twice, and the completions are exactly the completed requests |
| `Scheduling.FetchesAddUp` | src/lib/bdev_ubi_io_channel.c:158-164 | the fetches all channels started are those that fetched their stripe in this session, failed it, or are active |
| `Scheduling.IdleOnlyWhenDrained` | src/lib/bdev_ubi_io_channel.c:170-215 | with room in the rings, if no working step is enabled then no channel has a waiting request |
| `Scheduling.IdleOnlyWhenAnswered` | src/lib/bdev_ubi_io_channel.c:231-259 | with room in the rings, if no working step is enabled then the requests not completed are exactly the lost and the stranded ones |
| `Scheduling.WorkRunsOut` | src/lib/bdev_ubi_io_channel.c:151-259 | in any stretch without new requests and crashes the working steps are at most as many as the measure of work at its start, whatever comes between them |
| `Scheduling.EveryWaiterLeaves` | src/lib/bdev_ubi_io_channel.c:170-250 | with room in the rings, in such a stretch something can be done while a request waits, and after as many working steps as there was work no request waits |
| `Scheduling.Drains` | src/lib/bdev_ubi_io_channel.c:117-262 | from every reachable state in which stripes in flight are held, working steps alone lead to a state with all lists empty |
| `Progress.WorkEnabled` | src/lib/bdev_ubi_io_channel.c:191-197 | if stripes in flight are held, a waiting request leaves some working step enabled, also when it waits for another channel's fetch or for the read limit |
| `Fates.LostExactly` | src/lib/bdev_ubi_io_channel.c:239-245 | a request becomes lost exactly when it is the write being dispatched and is refused, or its data flush fails |
| `Fates.LostForGood` | src/lib/bdev_ubi_flush.c:55-60 | a lost request stays lost and uncompleted for the session |
| `Fates.ErrorExactly` | src/lib/bdev_ubi_io_channel.c:183-190 | a submitted request completes with a failure exactly when the environment refuses or fails one of its operations, or, first on its list and not held back by 24 reads in flight, it is a read or write starting in the image whose stripe failed; never for want of an io_uring entry or through the error branch |
| `Fates.UnfitNeverServed` | src/lib/bdev_ubi_io_channel.c:178-215 | a fetching request for an image block is dispatched only if its stripe lies within the device |
| `Fates.StrandedExactly` | src/lib/bdev_ubi_io_channel.c:122-133 | a read becomes stranded exactly when its buffer arrives with no poll under way and nothing waiting, or the submission that ends a poll fails with nothing waiting |
| `Fates.StrandedUntilSubmit` | src/lib/bdev_ubi_io_channel.c:252-259 | a stranded read stays so, and uncompleted, until the next request on its channel or a crash |
| `Holders.OneWaiterEach` | src/lib/bdev_ubi.c:526-533 | an injective assignment of waiting requests of the channel to the stripes it holds, each request being for its stripe |
| `Runs.SoundStep` | src/lib/bdev_ubi_io_channel.c:117-262 | every step keeps the invariants on order, ownership, headers, read counts, completions, fetch counts and fitting stripes |
| `Runs.DurableStep` | src/lib/bdev_ubi_flush.c:26-128 | if no shared stripe fits, every step keeps, as well, the invariants on placement and durability |
| `Runs.FaithfulStep` | src/lib/bdev_ubi_flush.c:26-128 | with exact copies, every step keeps, besides these, the invariants on contents and stale blocks |
| `Refinement.MirrorsStep` | src/lib/bdev_ubi_stripe.c:39-81 | with exact copies, every step keeps the base device, the slots and the reads in flight consistent with the plain disk |
| `Placement.PlacedStep` | src/lib/bdev_ubi_stripe.c:39-70 | if no shared stripe fits, every step keeps copies within the image, and reads and writes of the base device to blocks that are on it |
| `Durability.KeepingStep` | src/lib/bdev_ubi_flush.c:48-128 | where copies stay within the image, every step keeps every promise made by a completed flush or recorded by one in flight |
| `Headers.FlaggingStep` | src/lib/bdev_ubi_stripe.c:110-117 | every step keeps headers equal to fetched stripes, durable headers included in them, and the counters between |
| `Ownership.FetchesStep` | src/lib/bdev_ubi_stripe.c:72-104 | every step keeps each stripe held at most once, only in flight and awaited by its holder; only a ring overflow makes a stripe in flight lose its holder |
| `Metadata.ShortRoundTrip` | src/lib/bdev_ubi.c:630-638 | loading a stored little-endian 16-bit number gives it back |
| `Metadata.LoadWritten` | src/lib/bdev_ubi.c:234-263 | written metadata is never taken for a new disk, passes the magic and version checks, and restores exactly the stripes whose header was set, with both counters their number |
| `Metadata.LoadZeroed` | src/lib/bdev_ubi.c:266-280 | a zeroed region loads as a new disk with nothing fetched |
| `Metadata.LoadedIff` | src/lib/bdev_ubi.c:222-274 | every region is refused but those whose nine magic bytes are zero and those that start with the magic and version 0.1, byte by byte; of these, exactly what the headers say is restored, on a zeroed magic nothing as fetched |
| `Metadata.EncodedBytes` | src/lib/bdev_ubi.c:276-280 | every byte of written metadata: magic, version, low byte of the stripe size, one two-byte header per stripe, and zeroes |
| `Metadata.CountIncluded` | src/lib/bdev_ubi_flush.c:62-65 | comparing two counts decides equality of nested header sets |
| `Layout.PowerTest` | src/lib/bdev_ubi.c:346-349 | the bit test accepts exactly the powers of two |
| `Layout.AcceptedSizes` | src/lib/bdev_ubi.c:338-365 | accepted parameters force block and stripe sizes to be powers of two, the block size dividing the stripe size |
| `Layout.AcceptedMeans` | src/lib/bdev_ubi.c:333-363 | the bit test, the range and the two comparisons amount to that list of stripe sizes and those divisibilities, both directions |
| `Layout.Check` | src/lib/bdev_ubi.c:333-363 | the checks pass exactly if, in 64-bit arithmetic, image and metadata are no larger than the device, the stripe size is 64, 128, 256, 512 or 1024 KB, and the block size divides both 8388608 and the stripe size |
| `Layout.Log2` | src/lib/bdev_ubi.c:365-370 | the halving loop finds the exact logarithm |
| `Layout.InitLayoutParams` | src/lib/bdev_ubi.c:320-378 | parameters are accepted if and only if the file exists and these conditions hold, and then all derived counts are exact |
| `Layout.OffsetsAgree` | src/lib/bdev_ubi_stripe.c:41-61 | the bytes a fetch writes for a stripe are exactly those at which reads and writes look for its blocks, for every stripe and block |
| `Layout.ConfigOkIff` | src/lib/bdev_ubi.c:166-180 | what is assumed of a configuration holds if and only if image and metadata fit on the base device and the status table covers every stripe of the device |
| `Layout.AcceptedConfigOk` | src/lib/bdev_ubi.c:338-375 | for accepted parameters below 2^64 bytes it holds if and only if the data blocks are at most the blocks per stripe times the table size |
| `Layout.TableTooSmall` | src/lib/bdev_ubi_io_channel.c:306-308 | accepted parameters for which it fails: block 2^28 of the device has a stripe number beyond the table |
| `StripeQueue.MaskIsRemainder` | src/lib/bdev_ubi_stripe.c:91-92 | masking with one less than a power of two is taking the remainder |
| `StripeQueue.Queue.constructor` | src/lib/bdev_ubi_io_channel.c:57-58 | a new ring is empty |
| `StripeQueue.Queue.Enqueue` | src/lib/bdev_ubi_stripe.c:89-93 | appends to the FIFO for any number of wrap-arounds while at most 32766 stripes are queued; one more makes the ring look empty |
| `StripeQueue.Queue.Dequeue` | src/lib/bdev_ubi_stripe.c:95-100 | removes and returns the oldest stripe |
| `StripeQueue.Queue.IsEmpty` | src/lib/bdev_ubi_stripe.c:102-104 | true exactly when no stripe is queued |
| `Bdev.UbiBdev.SetStripeStatus` | src/lib/bdev_ubi_stripe.c:110-117 | sets one status, and its header exactly when the status is fetched |
| `Bdev.UbiBdev.IsNewDisk` | src/lib/bdev_ubi.c:266-274 | true exactly when all magic bytes are zero |
| `Bdev.UbiBdev.CountFlags` | src/lib/bdev_ubi.c:252-260 | the loop over the headers sets every status from its header and both counters to their number |
| `Bdev.UbiBdev.FinishReadMetadata` | src/lib/bdev_ubi.c:222-264 | fails with an I/O error if the read failed, with EINVAL exactly if the first bytes are neither nine zeroes nor the magic and version 0.1, and otherwise leaves in memory the headers as read, the stripes they name as fetched (none on a zeroed magic) and both counters their number |
| `Bdev.UbiBdev.Create` | src/lib/bdev_ubi.c:222-264 | a new object is refused or holds exactly what the region loads as |
| `Bdev.UbiBdev.CreateNew` | src/lib/bdev_ubi.c:266-280 | on a zeroed metadata region the new object holds the initial state of every run |
| `Bdev.UbiBdev.Recreate` | src/lib/bdev_ubi.c:222-264 | from the medium of any reachable state the new object holds the state after a crash there, which is reachable |
| `Bdev.UbiBdev.DataFlushCompletion` | src/lib/bdev_ubi_flush.c:48-80 | performs the protocol's step and does next what the request's new phase says; nothing at all after a failed data flush |
| `Bdev.UbiBdev.MetadataWriteCompletion` | src/lib/bdev_ubi_flush.c:82-107 | performs the protocol's step, with the counter snapshot kept |
| `Bdev.UbiBdev.MetadataFlushCompletion` | src/lib/bdev_ubi_flush.c:109-128 | performs the protocol's step; on success raises stripes_flushed to the snapshot if that is more, and otherwise leaves it |
| `Channel.IoChannel.constructor` | src/lib/bdev_ubi_io_channel.c:36-92 | a new channel is the protocol's empty channel |
| `Channel.IoChannel.SubmitRequest` | src/lib/bdev_ubi.c:502-534 | performs the protocol's submission; refuses exactly the writes (with copy_on_read reads) whose first and last blocks lie in different stripes; marks in flight and queues the stripe exactly of those others that start in the image in a stripe not yet asked for, overflow of the ring included |
| `Channel.IoChannel.CompleteFetchStripe` | src/lib/bdev_ubi_stripe.c:39-70 | performs the protocol's step for a delivered stripe, failing it on either error |
| `Channel.IoChannel.FailStripeFetch` | src/lib/bdev_ubi_stripe.c:83-87 | marks the stripe failed and frees its slot |
| `Channel.IoChannel.WriteStripeCompletion` | src/lib/bdev_ubi_stripe.c:72-81 | performs the protocol's step that makes a stripe fetched |
| `Channel.IoChannel.CompleteReadFromImage` | src/lib/bdev_ubi_io_channel.c:334-343 | performs the protocol's step for an image read |
| `Channel.IoChannel.IoCompletion` | src/lib/bdev_ubi_io_channel.c:395-411 | performs the protocol's step for a read or write of the base device |
| `Channel.IoChannel.GetBufForRead` | src/lib/bdev_ubi_io_channel.c:296-332 | performs the protocol's step and routes the read as its new phase says, to the base device for all its blocks; counts prepared image reads |
| `Polling.PollKeeps` | src/lib/bdev_ubi_io_channel.c:117-262 | any series of poller steps of a channel changes no other channel or its requests, no request but in its phase, no block, header or counter, and takes requests off the list from its front |
| `Polling.PollResults` | src/lib/bdev_ubi_io_channel.c:170-291 | completions followed by the service of the first requests: exactly these requests and the completed image reads change, each to the phase that the stripe table and the environment's answers determine |
| `Channel.IoChannel.Undisturbed` | src/lib/bdev_ubi_io_channel.c:117-262 | an object that mirrors another channel still does after a poll of this one |
| `Channel.IoChannel.CompleteImageIo` | src/lib/bdev_ubi_io_channel.c:264-291 | takes exactly the steps of its completions, in order; the image reads they are for end as they say and no other request changes; lists and prepared reads stay; the result is that of the last one, 0 without any, -1 on an error |
| `Channel.IoChannel.FreeFetches` | src/lib/bdev_ubi_io_channel.c:138-145 | lists exactly the idle slots, each once |
| `Channel.IoChannel.StartFetches` | src/lib/bdev_ubi_io_channel.c:150-165 | the steps are starts of fetches alone: the oldest queued stripes go to the first idle slots, in order, until the queue is empty or no slot is idle; the first submits prepared reads too; nothing else changes |
| `Resources.DecideMeans` | src/lib/bdev_ubi_io_channel.c:173-215 | the protocol's decision about a request, in terms of its kind, the status of its stripe and the reads active |
| `Channel.IoChannel.Examine` | src/lib/bdev_ubi_io_channel.c:173-215 | holds back a read exactly with 24 reads active; of the others starting in the image, fails those of a failed stripe, holds back those of a stripe in flight, and serves the rest |
| `Channel.IoChannel.Dispatch` | src/lib/bdev_ubi_io_channel.c:222-249 | performs the protocol's step that starts a request, and the operation its new phase names, for exactly the blocks from the first to the last of the request |
| `Channel.IoChannel.ServeRequests` | src/lib/bdev_ubi_io_channel.c:170-250 | takes requests off the front of the list until it is empty or its head is a read with 24 in flight or a read or write starting in the image whose stripe is in flight; none of those taken waits for a fetch, each gets its exact outcome (failed, dispatched, lost, skipped, or for a read with its buffer the device it goes to) and no other request changes |
| `Channel.IoChannel.EndPoll` | src/lib/bdev_ubi_io_channel.c:252-259 | submits the prepared reads and resets has_reads, or leaves both if submission fails |
| `Channel.IoChannel.Poll` | src/lib/bdev_ubi_io_channel.c:117-262 | one poll is a series of steps of this channel's poller, its completions first, to a reachable state, without the error branch; it keeps to its channel, the oldest stripes and requests leave their lists and every request ends up exactly as in `Results`; with something in its lists it leaves nothing startable or servable and submits the prepared reads unless that fails; without, it only handles completions and prepared reads stay prepared; the result is exact |
| `Channel.IoChannel.Work` | src/lib/bdev_ubi_io_channel.c:135-259 | the part after the completions: first fetches, then requests, then the submission, with the outcomes of each |
| `Traces.PathReaches` | src/lib/bdev_ubi_io_channel.c:117-262 | the steps of a call lead from reachable states to reachable states, so results about runs hold after it |
| `Traces.NoBug` | src/lib/bdev_ubi_io_channel.c:198-214 | no series of steps from a reachable state contains the error branch |

## Left out

- JSON-RPC, configuration dump and the vhost application (src/lib/bdev_ubi_rpc.c, src/app/vhost_ubi.c): plumbing over SPDK.
- Registration, claiming, hot removal, threads, errors while opening a channel, and channel destruction: thin wrappers over SPDK.
- A failing `io_uring_submit` when a fetch starts (src/lib/bdev_ubi_stripe.c:31-36): it frees the slot but leaves the prepared entry in the ring.
- Failing stripe writes: the code ignores the outcome, so the model lets accepted ones succeed.
- Short image reads inside the image: the code only checks for negative results.
- Torn metadata writes, changed parameters between sessions, and creating the bdev again without a crash.
- Data races between threads on the status table: callbacks are atomic here.
- `ubi_init_metadata` in memory: the model writes the magic, version and stripe size with every metadata write instead of keeping them in memory.
- Block and stripe statistics other than the started-fetch count, and logging.
- Metadata.ShortRoundTrip: states one direction only, because the bytes of a version that is not 0.1 are refused anyway.
- Limits.NothingStaleIff: assumes exact copies, because otherwise leftovers show without any crash (`CopiedLeftovers`).
