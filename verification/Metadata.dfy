/**
 The metadata region at the start of the base device, byte by byte, and how a bdev reloads it.
 */
module Metadata {
  import opened Types

  type Byte = x: int | 0 <= x < 256

  const MAGIC: seq<Byte> := [66, 68, 69, 86, 95, 85, 66, 73, 0]
  const MAGIC_SIZE: nat := 9
  const VERSION_MAJOR: nat := 0
  const VERSION_MINOR: nat := 1

  /** Offsets within the on-disk structure. */
  const MAJOR_OFFSET: nat := 9
  const MINOR_OFFSET: nat := 11
  const SIZE_OFFSET: nat := 13
  const HEADERS_OFFSET: nat := 14
  const PADDING_OFFSET: nat := 4194318

  function StoreShort(n: nat): (mem: seq<Byte>)
    requires n < 0x10000
    ensures |mem| == 2
  {
    [n % 256, n / 256]
  }

  function LoadShort(mem: seq<Byte>): (n: nat)
    requires |mem| == 2
    ensures n < 0x10000
  {
    mem[0] as int + mem[1] as int * 256
  }

  lemma ShortRoundTrip(n: nat)
    requires n < 0x10000
    ensures LoadShort(StoreShort(n)) == n
  {
  }

  /** The in-memory structure: the creation parameters and one flag per stripe. */
  datatype Header = Header(stripeSizeKb: nat, fetched: seq<bool>)

  ghost predicate HeaderOk(h: Header) {
    |h.fetched| == MAX_STRIPES
  }

  function Preamble(stripeSizeKb: nat): (bytes: seq<Byte>)
    ensures |bytes| == HEADERS_OFFSET
  {
    MAGIC + StoreShort(VERSION_MAJOR) + StoreShort(VERSION_MINOR) + [stripeSizeKb % 256]
  }

  /** The bytes that a metadata write puts on the base device. */
  function Encode(h: Header): (bytes: seq<Byte>)
    requires HeaderOk(h)
    ensures |bytes| == METADATA_SIZE
  {
    Preamble(h.stripeSizeKb)
    + seq(2 * MAX_STRIPES, i requires 0 <= i < 2 * MAX_STRIPES => if i % 2 == 0 && h.fetched[i / 2] then 1 else 0)
    + Zeros(METADATA_SIZE - PADDING_OFFSET)
  }

  function Zeros(n: nat): (bytes: seq<Byte>)
    ensures |bytes| == n
  {
    seq(n, _ => 0)
  }

  /** The first byte of each stripe header, as a flag. */
  function Flags(bytes: seq<Byte>): (flags: seq<bool>)
    requires |bytes| == METADATA_SIZE
    ensures |flags| == MAX_STRIPES
  {
    seq(MAX_STRIPES, i requires 0 <= i < MAX_STRIPES => bytes[HEADERS_OFFSET + 2 * i] != 0)
  }

  function Cleared(): (flags: seq<bool>)
    ensures |flags| == MAX_STRIPES
  {
    seq(MAX_STRIPES, _ => false)
  }

  function StatusOf(flags: seq<bool>): (status: seq<Status>)
    ensures |status| == |flags|
  {
    seq(|flags|, i requires 0 <= i < |flags| => if flags[i] then Fetched else NotFetched)
  }

  /** A disk is new if its magic bytes are all zero. */
  predicate NewDisk(bytes: seq<Byte>)
    requires |bytes| == METADATA_SIZE
  {
    forall i | 0 <= i < MAGIC_SIZE :: bytes[i] == 0
  }

  datatype Loaded =
    | Loaded(status: seq<Status>, flags: seq<bool>, stripesFetched: nat, stripesFlushed: nat)
    | InvalidMagic
    | UnsupportedVersion

  /**
   What a bdev starts from, given the metadata region. On a new disk only the magic, version and
   stripe size are initialised in memory: the stripe headers stay as they were read.
   */
  function Load(bytes: seq<Byte>): Loaded
    requires |bytes| == METADATA_SIZE
  {
    if NewDisk(bytes) then
      Loaded(StatusOf(Cleared()), Flags(bytes), 0, 0)
    else if bytes[..MAGIC_SIZE] != MAGIC then
      InvalidMagic
    else if LoadShort(bytes[MAJOR_OFFSET..MINOR_OFFSET]) != VERSION_MAJOR
         || LoadShort(bytes[MINOR_OFFSET..SIZE_OFFSET]) != VERSION_MINOR then
      UnsupportedVersion
    else
      var flags := Flags(bytes);
      Loaded(StatusOf(flags), flags, Count(flags), Count(flags))
  }

  /** The nine magic bytes of a region are zero. */
  ghost predicate Blank(bytes: seq<Byte>)
    requires |bytes| == METADATA_SIZE
  {
    bytes[..9] == [0, 0, 0, 0, 0, 0, 0, 0, 0]
  }

  /** A region starts with the magic and version 0.1, byte by byte. */
  ghost predicate Ours(bytes: seq<Byte>)
    requires |bytes| == METADATA_SIZE
  {
    bytes[..13] == [66, 68, 69, 86, 95, 85, 66, 73, 0, 0, 0, 1, 0]
  }

  lemma BlankIsNew(bytes: seq<Byte>)
    requires |bytes| == METADATA_SIZE
    ensures NewDisk(bytes) <==> Blank(bytes)
  {
    if NewDisk(bytes) {
      assert forall i | 0 <= i < 9 :: bytes[..9][i] == bytes[i] == 0;
    } else {
      var i :| 0 <= i < MAGIC_SIZE && bytes[i] != 0;
      assert bytes[..9][i] != 0;
    }
  }

  lemma OursPasses(bytes: seq<Byte>)
    requires |bytes| == METADATA_SIZE
    ensures Ours(bytes) <==>
            && bytes[..MAGIC_SIZE] == MAGIC
            && LoadShort(bytes[MAJOR_OFFSET..MINOR_OFFSET]) == VERSION_MAJOR
            && LoadShort(bytes[MINOR_OFFSET..SIZE_OFFSET]) == VERSION_MINOR
  {
    assert bytes[..13] == bytes[..9] + bytes[9..11] + bytes[11..13];
    assert bytes[9..11] == [bytes[9], bytes[10]] && bytes[11..13] == [bytes[11], bytes[12]];
    if Ours(bytes) {
      assert bytes[..9] == bytes[..13][..9];
      assert bytes[..13][9] == 0 && bytes[..13][10] == 0 && bytes[..13][11] == 1 && bytes[..13][12] == 0;
    }
  }

  /** What memory holds after loading: the headers as read, and on a region of ours the stripes they name. */
  ghost predicate Restored(bytes: seq<Byte>, status: seq<Status>, flags: seq<bool>, fetched: nat, flushed: nat)
    requires |bytes| == METADATA_SIZE
  {
    && |status| == |flags| == MAX_STRIPES
    && (forall x | 0 <= x < MAX_STRIPES :: flags[x] <==> bytes[14 + 2 * x] != 0)
    && (forall x | 0 <= x < MAX_STRIPES :: status[x] == if Ours(bytes) && flags[x] then Fetched else NotFetched)
    && fetched == flushed == if Ours(bytes) then Count(flags) else 0
  }

  /** Every region but these two kinds is refused. Only on ours do the headers say what is fetched. */
  lemma LoadedIff(bytes: seq<Byte>)
    requires |bytes| == METADATA_SIZE
    ensures Load(bytes).Loaded? <==> Blank(bytes) || Ours(bytes)
    ensures var l := Load(bytes); l.Loaded? ==> Restored(bytes, l.status, l.flags, l.stripesFetched, l.stripesFlushed)
  {
    BlankIsNew(bytes);
    OursPasses(bytes);
    if Ours(bytes) {
      assert bytes[..13][0] == 66;
    }
  }

  /** Every byte of written metadata. */
  lemma EncodedBytes(h: Header, i: nat)
    requires HeaderOk(h) && i < METADATA_SIZE
    ensures Ours(Encode(h)) && Encode(h)[13] == h.stripeSizeKb % 256
    ensures 14 <= i ==> Encode(h)[i] == if i % 2 == 0 && i < 4194318 && h.fetched[(i - 14) / 2] then 1 else 0
  {
    var bytes := Encode(h);
    assert bytes[..HEADERS_OFFSET] == Preamble(h.stripeSizeKb);
    assert bytes[..13] == bytes[..HEADERS_OFFSET][..13];
    assert bytes[13] == bytes[..HEADERS_OFFSET][13];
  }

  lemma EncodeParts(h: Header)
    requires HeaderOk(h)
    ensures Encode(h)[..MAGIC_SIZE] == MAGIC
    ensures Encode(h)[MAJOR_OFFSET..MINOR_OFFSET] == StoreShort(VERSION_MAJOR)
    ensures Encode(h)[MINOR_OFFSET..SIZE_OFFSET] == StoreShort(VERSION_MINOR)
    ensures Flags(Encode(h)) == h.fetched
  {
    var bytes := Encode(h);
    assert bytes[..HEADERS_OFFSET] == Preamble(h.stripeSizeKb);
    assert bytes[..MAGIC_SIZE] == bytes[..HEADERS_OFFSET][..MAGIC_SIZE];
    assert bytes[MAJOR_OFFSET..MINOR_OFFSET] == bytes[..HEADERS_OFFSET][MAJOR_OFFSET..MINOR_OFFSET];
    assert bytes[MINOR_OFFSET..SIZE_OFFSET] == bytes[..HEADERS_OFFSET][MINOR_OFFSET..SIZE_OFFSET];
    forall i | 0 <= i < MAX_STRIPES
      ensures Flags(bytes)[i] == h.fetched[i]
    {
      assert (2 * i) % 2 == 0 && (2 * i) / 2 == i;
    }
  }

  /** Reloading written metadata restores exactly the stripes whose header was set. */
  lemma LoadWritten(h: Header)
    requires HeaderOk(h)
    ensures !NewDisk(Encode(h))
    ensures Load(Encode(h)) == Loaded(StatusOf(h.fetched), h.fetched, Count(h.fetched), Count(h.fetched))
  {
    EncodeParts(h);
    assert Encode(h)[..MAGIC_SIZE][0] == 66;
    ShortRoundTrip(VERSION_MAJOR);
    ShortRoundTrip(VERSION_MINOR);
  }

  /** A zeroed region loads as a new disk with nothing fetched. */
  lemma LoadZeroed()
    ensures Load(Zeros(METADATA_SIZE)) == Loaded(StatusOf(Cleared()), Cleared(), 0, 0)
  {
    assert Flags(Zeros(METADATA_SIZE)) == Cleared();
  }

  /** The number of flags that are set. */
  function Count(flags: seq<bool>): nat {
    if flags == [] then 0
    else Count(flags[..|flags| - 1]) + if flags[|flags| - 1] then 1 else 0
  }

  ghost predicate Included(a: seq<bool>, b: seq<bool>) {
    && |a| == |b|
    && forall i | 0 <= i < |a| :: a[i] ==> b[i]
  }

  lemma {:induction false} CountSet(flags: seq<bool>, i: nat)
    requires i < |flags| && !flags[i]
    ensures Count(flags[i := true]) == Count(flags) + 1
  {
    var n := |flags| - 1;
    var set_ := flags[i := true];
    if i == n {
      assert set_[..n] == flags[..n];
    } else {
      assert set_[..n] == flags[..n][i := true];
      CountSet(flags[..n], i);
    }
  }

  lemma {:induction false} CountNone(flags: seq<bool>)
    requires forall i | 0 <= i < |flags| :: !flags[i]
    ensures Count(flags) == 0
  {
    if flags == [] {
    } else {
      CountNone(flags[..|flags| - 1]);
    }
  }

  /** Counting decides equality of nested sets of stripes. */
  lemma {:induction false} CountIncluded(a: seq<bool>, b: seq<bool>)
    requires Included(a, b)
    ensures Count(a) <= Count(b)
    ensures Count(a) == Count(b) ==> a == b
  {
    if a == [] {
    } else {
      var n := |a| - 1;
      CountIncluded(a[..n], b[..n]);
      assert a == a[..n] + [a[n]] && b == b[..n] + [b[n]];
    }
  }
}
