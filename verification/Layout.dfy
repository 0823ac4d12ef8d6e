/**
 The layout of the base device: what the creation parameters must satisfy, the stripe geometry that
 is derived from them, and why byte offsets and block offsets agree.
 */
module Layout {
  import opened Types

  const UINT32: nat := 0x1_0000_0000
  const UINT64: nat := 0x1_0000_0000_0000_0000

  datatype Geometry = Geometry(stripeBlockCount: nat, stripeShift: nat, dataOffsetBlocks: nat, imageBlockCount: nat)

  function Pow2(n: nat): (r: nat)
    ensures 0 < r
  {
    if n == 0 then 1 else 2 * Pow2(n - 1)
  }

  ghost predicate IsPow2(n: nat) {
    exists k: nat :: n == Pow2(k)
  }

  /** Bitwise and of unsigned integers. */
  function BitAnd(x: nat, y: nat): nat {
    if x == 0 || y == 0 then 0 else (x % 2) * (y % 2) + 2 * BitAnd(x / 2, y / 2)
  }

  lemma {:induction false} Pow2Add(a: nat, b: nat)
    ensures Pow2(a + b) == Pow2(a) * Pow2(b)
  {
    if a == 0 {
    } else {
      Pow2Add(a - 1, b);
      assert Pow2(a) * Pow2(b) == 2 * (Pow2(a - 1) * Pow2(b));
    }
  }

  lemma {:induction false} Pow2Monotone(a: nat, b: nat)
    requires a <= b
    ensures Pow2(a) <= Pow2(b)
  {
    if a == b {
    } else {
      Pow2Monotone(a, b - 1);
    }
  }

  lemma Pow2Values()
    ensures Pow2(10) == 1024 && Pow2(15) == FETCH_QUEUE_SIZE && Pow2(23) == METADATA_SIZE
  {
    assert Pow2(10) == 1024;
    assert Pow2(15) == 32768;
    assert Pow2(23) == 8388608;
  }

  lemma Pow2Half(n: nat)
    requires IsPow2(n) && n > 1
    ensures n % 2 == 0 && IsPow2(n / 2)
  {
    var k: nat :| n == Pow2(k);
    assert n / 2 == Pow2(k - 1);
  }

  lemma Pow2Double(n: nat)
    requires IsPow2(n)
    ensures IsPow2(2 * n)
  {
    var k: nat :| n == Pow2(k);
    assert 2 * n == Pow2(k + 1);
  }

  lemma {:induction false} BitAndSelf(n: nat)
    ensures BitAnd(n, n) == n
  {
    if n == 0 {
    } else {
      BitAndSelf(n / 2);
      assert (n % 2) * (n % 2) == n % 2;
    }
  }

  /** The test `n & (n - 1)` is zero exactly for powers of two. */
  lemma {:induction false} PowerTest(n: nat)
    requires n > 0
    ensures BitAnd(n, n - 1) == 0 <==> IsPow2(n)
  {
    if n == 1 {
      assert n == Pow2(0);
    } else if n % 2 == 0 {
      var m := n / 2;
      assert (n - 1) / 2 == m - 1 && (n - 1) % 2 == 1;
      assert BitAnd(n, n - 1) == 2 * BitAnd(m, m - 1);
      PowerTest(m);
      if IsPow2(m) {
        Pow2Double(m);
      } else if IsPow2(n) {
        Pow2Half(n);
      }
    } else {
      var m := n / 2;
      assert (n - 1) / 2 == m && (n - 1) % 2 == 0;
      BitAndSelf(m);
      if IsPow2(n) {
        Pow2Half(n);
      }
    }
  }

  /** Only powers of two divide a power of two. */
  lemma {:induction false} DivisorOfPow2(d: nat, q: nat, k: nat) returns (j: nat)
    requires d * q == Pow2(k)
    ensures j <= k && d == Pow2(j)
    decreases k, d
  {
    if k == 0 {
      assert d == 1 by { ProductIsOne(d, q); }
      j := 0;
    } else if d % 2 == 0 {
      assert (d / 2) * q == Pow2(k - 1) by { assert d == 2 * (d / 2); assert 2 * ((d / 2) * q) == d * q; }
      j := DivisorOfPow2(d / 2, q, k - 1);
      j := j + 1;
    } else {
      OddTimesEven(d, q, Pow2(k - 1));
      assert d * (q / 2) == Pow2(k - 1) by { assert q == 2 * (q / 2); assert 2 * (d * (q / 2)) == d * q; }
      j := DivisorOfPow2(d, q / 2, k - 1);
    }
  }

  lemma ProductIsOne(d: nat, q: nat)
    requires d * q == 1
    ensures d == 1
  {
    if q > 0 {
      assert d * q == d + d * (q - 1);
    }
  }

  lemma OddTimesEven(d: nat, q: nat, h: nat)
    requires d % 2 == 1 && d * q == 2 * h
    ensures q % 2 == 0
  {
    var a, b, r := d / 2, q / 2, q % 2;
    assert d * q == d * (2 * b) + d * r;
    assert d * r == 2 * (a * r) + r;
    assert d * q == 2 * (d * b + a * r) + r;
  }

  // ---------------------------------------------------------------- accepted parameters

  /** The checks on the creation parameters; sizes are compared in 64-bit arithmetic. */
  ghost predicate Accepted(imageSize: nat, blocklen: nat, blockcnt: nat, stripeSizeKb: nat)
    requires 0 < blocklen
  {
    && (blockcnt * blocklen) % UINT64 >= (imageSize + METADATA_SIZE) % UINT64
    && STRIPE_SIZE_MIN <= stripeSizeKb <= STRIPE_SIZE_MAX
    && IsPow2(stripeSizeKb)
    && stripeSizeKb * 1024 >= blocklen
    && METADATA_SIZE % blocklen == 0
  }

  /** The geometry that goes with accepted parameters. */
  ghost predicate Fitted(g: Geometry, imageSize: nat, blocklen: nat, stripeSizeKb: nat) {
    && g.stripeBlockCount == Pow2(g.stripeShift)
    && g.stripeBlockCount * blocklen == stripeSizeKb * 1024
    && g.dataOffsetBlocks * blocklen == METADATA_SIZE
    && (g.imageBlockCount - 1) * blocklen < imageSize <= g.imageBlockCount * blocklen
  }

  /** Acceptance forces block and stripe sizes to be powers of two, the smaller dividing the larger. */
  lemma AcceptedSizes(imageSize: nat, blocklen: nat, blockcnt: nat, stripeSizeKb: nat) returns (j: nat, e: nat)
    requires 0 < blocklen && Accepted(imageSize, blocklen, blockcnt, stripeSizeKb)
    ensures blocklen == Pow2(j) && stripeSizeKb * 1024 == Pow2(e) * blocklen
  {
    Pow2Values();
    assert blocklen * (METADATA_SIZE / blocklen) == METADATA_SIZE;
    j := DivisorOfPow2(blocklen, METADATA_SIZE / blocklen, 23);
    var a: nat :| stripeSizeKb == Pow2(a);
    Pow2Add(a, 10);
    if a + 10 < j {
      Pow2Monotone(a + 11, j);
    }
    e := a + 10 - j;
    Pow2Add(e, j);
  }

  lemma StripeSizes(n: nat)
    ensures STRIPE_SIZE_MIN <= n <= STRIPE_SIZE_MAX && IsPow2(n) <==> n in {64, 128, 256, 512, 1024}
  {
    assert Pow2(5) == 32 && Pow2(6) == 64 && Pow2(7) == 128 && Pow2(8) == 256 && Pow2(9) == 512;
    assert Pow2(10) == 1024 && Pow2(11) == 2048;
    if STRIPE_SIZE_MIN <= n <= STRIPE_SIZE_MAX && IsPow2(n) {
      var k: nat :| n == Pow2(k);
      if k <= 5 {
        Pow2Monotone(k, 5);
      } else if k >= 11 {
        Pow2Monotone(11, k);
      }
    }
  }

  lemma DivisorAtMost(d: nat, n: nat)
    requires 0 < d && 0 < n && n % d == 0
    ensures d <= n
  {
    assert n == d * (n / d);
  }

  /** The checks in a caller's terms. */
  lemma AcceptedMeans(imageSize: nat, blocklen: nat, blockcnt: nat, stripeSizeKb: nat)
    requires 0 < blocklen
    ensures Accepted(imageSize, blocklen, blockcnt, stripeSizeKb) <==>
            && (imageSize + 8388608) % UINT64 <= (blockcnt * blocklen) % UINT64
            && stripeSizeKb in {64, 128, 256, 512, 1024}
            && 8388608 % blocklen == 0 && (stripeSizeKb * 1024) % blocklen == 0
  {
    StripeSizes(stripeSizeKb);
    if Accepted(imageSize, blocklen, blockcnt, stripeSizeKb) {
      var j, e := AcceptedSizes(imageSize, blocklen, blockcnt, stripeSizeKb);
      MultipleDivides(Pow2(e), blocklen);
    } else if stripeSizeKb in {64, 128, 256, 512, 1024} && (stripeSizeKb * 1024) % blocklen == 0 {
      DivisorAtMost(blocklen, stripeSizeKb * 1024);
    }
  }

  lemma MultipleDivides(q: nat, d: nat)
    requires 0 < d
    ensures (q * d) % d == 0
  {
    Quotient(q * d, d, q);
  }

  /** The halving loop. */
  method Log2(n: nat, ghost e: nat) returns (log2: nat)
    requires n == Pow2(e)
    ensures log2 == e
  {
    var rest := n;
    log2 := 0;
    while rest > 1
      invariant log2 <= e && rest == Pow2(e - log2)
    {
      rest := rest / 2;
      log2 := log2 + 1;
    }
  }

  lemma FittedBy(imageSize: nat, blocklen: nat, stripeSizeKb: nat, e: nat)
    requires 0 < blocklen && METADATA_SIZE % blocklen == 0 && stripeSizeKb * 1024 == Pow2(e) * blocklen
    ensures Fitted(Geometry(Pow2(e), e, METADATA_SIZE / blocklen, (imageSize + blocklen - 1) / blocklen),
                   imageSize, blocklen, stripeSizeKb)
  {
    RoundUp(imageSize, blocklen);
    assert METADATA_SIZE / blocklen * blocklen == METADATA_SIZE;
  }

  lemma AcceptedGeometry(imageSize: nat, blocklen: nat, blockcnt: nat, stripeSizeKb: nat) returns (e: nat)
    requires 0 < blocklen && Accepted(imageSize, blocklen, blockcnt, stripeSizeKb)
    ensures (stripeSizeKb * 1024 + blocklen - 1) / blocklen == Pow2(e)
    ensures Fitted(Geometry(Pow2(e), e, METADATA_SIZE / blocklen, (imageSize + blocklen - 1) / blocklen),
                   imageSize, blocklen, stripeSizeKb)
  {
    var j;
    j, e := AcceptedSizes(imageSize, blocklen, blockcnt, stripeSizeKb);
    ExactRoundUp(Pow2(e), blocklen);
    FittedBy(imageSize, blocklen, stripeSizeKb, e);
  }

  /** The checks at its start, one after the other. */
  method Check(imageSize: nat, blocklen: nat, blockcnt: nat, stripeSizeKb: nat) returns (ok: bool)
    requires 0 < blocklen
    ensures ok <==> Accepted(imageSize, blocklen, blockcnt, stripeSizeKb)
    ensures ok <==>
            && (imageSize + 8388608) % UINT64 <= (blockcnt * blocklen) % UINT64
            && stripeSizeKb in {64, 128, 256, 512, 1024}
            && 8388608 % blocklen == 0 && (stripeSizeKb * 1024) % blocklen == 0
  {
    AcceptedMeans(imageSize, blocklen, blockcnt, stripeSizeKb);
    if (blockcnt * blocklen) % UINT64 < (imageSize + METADATA_SIZE) % UINT64 {
      return false;
    }
    if stripeSizeKb < STRIPE_SIZE_MIN || stripeSizeKb > STRIPE_SIZE_MAX {
      return false;
    }
    PowerTest(stripeSizeKb);
    if BitAnd(stripeSizeKb, stripeSizeKb - 1) != 0 {
      return false;
    }
    var stripSizeBytes := stripeSizeKb * 1024;
    if stripSizeBytes < blocklen {
      return false;
    }
    if METADATA_SIZE % blocklen != 0 {
      return false;
    }
    return true;
  }

  /** `ubi_init_layout_params`; `stat` is the size of the image file, if it exists. */
  method InitLayoutParams(stat: Option<nat>, blocklen: nat, blockcnt: nat, stripeSizeKb: nat)
    returns (r: Option<Geometry>)
    requires 0 < blocklen < UINT32 && blockcnt < UINT64 && stripeSizeKb < UINT32
    ensures r.Some? <==> stat.Some? && Accepted(stat.value, blocklen, blockcnt, stripeSizeKb)
    ensures r.Some? <==>
            && stat.Some?
            && (stat.value + 8388608) % UINT64 <= (blockcnt * blocklen) % UINT64
            && stripeSizeKb in {64, 128, 256, 512, 1024}
            && 8388608 % blocklen == 0 && (stripeSizeKb * 1024) % blocklen == 0
    ensures r.Some? ==> Fitted(r.value, stat.value, blocklen, stripeSizeKb)
  {
    if stat.None? {
      return None;
    }
    var imageSize := stat.value;
    var ok := Check(imageSize, blocklen, blockcnt, stripeSizeKb);
    if !ok {
      return None;
    }
    ghost var e := AcceptedGeometry(imageSize, blocklen, blockcnt, stripeSizeKb);
    var log2 := Log2((stripeSizeKb * 1024 + blocklen - 1) / blocklen, e);
    r := Some(Geometry(Pow2(log2), log2, METADATA_SIZE / blocklen, (imageSize + blocklen - 1) / blocklen));
  }

  lemma RoundUp(n: nat, d: nat)
    requires 0 < d
    ensures ((n + d - 1) / d - 1) * d < n <= ((n + d - 1) / d) * d
  {
    var q := (n + d - 1) / d;
    assert q * d <= n + d - 1 < q * d + d;
    assert (q - 1) * d == q * d - d;
  }

  lemma ExactRoundUp(q: nat, d: nat)
    requires 0 < d
    ensures (q * d + d - 1) / d == q
  {
    var p := (q * d + d - 1) / d;
    assert p * d <= q * d + d - 1 < p * d + d;
    assert (q + 1) * d == q * d + d && (p + 1) * d == p * d + d;
    MulCancels(p, q + 1, d);
    MulCancels(q, p + 1, d);
  }

  // ---------------------------------------------------------------- byte and block offsets

  /** The first byte that a fetch of stripe `x` writes on the base device. */
  function FetchOffset(stripeSizeKb: nat, x: nat): nat {
    stripeSizeKb * 1024 * x + METADATA_SIZE
  }

  /** The first byte of block `b` as reads and writes address it on the base device. */
  function BlockOffset(g: Geometry, blocklen: nat, b: nat): nat {
    (b + g.dataOffsetBlocks) * blocklen
  }

  lemma Associate(n: nat, l: nat, x: nat)
    ensures (n * l) * x == (n * x) * l
  {
  }

  lemma FetchAt(g: Geometry, imageSize: nat, blocklen: nat, stripeSizeKb: nat, x: nat)
    requires Fitted(g, imageSize, blocklen, stripeSizeKb)
    ensures FetchOffset(stripeSizeKb, x) == (g.stripeBlockCount * x) * blocklen + METADATA_SIZE
  {
    Associate(g.stripeBlockCount, blocklen, x);
  }

  lemma BlockAt(g: Geometry, imageSize: nat, blocklen: nat, stripeSizeKb: nat, b: nat)
    requires Fitted(g, imageSize, blocklen, stripeSizeKb)
    ensures BlockOffset(g, blocklen, b) == b * blocklen + METADATA_SIZE
  {
    assert (b + g.dataOffsetBlocks) * blocklen == b * blocklen + g.dataOffsetBlocks * blocklen;
  }

  /**
   The bytes that a fetch of stripe `x` writes are exactly those of the blocks whose number, shifted
   right, is `x`; and each block receives the bytes that the image holds at that block's offset.
   */
  lemma OffsetsAgree(g: Geometry, imageSize: nat, blocklen: nat, stripeSizeKb: nat, x: nat, b: nat)
    requires 0 < blocklen && Fitted(g, imageSize, blocklen, stripeSizeKb)
    ensures b / g.stripeBlockCount == x <==>
            FetchOffset(stripeSizeKb, x) <= BlockOffset(g, blocklen, b) < FetchOffset(stripeSizeKb, x + 1)
    ensures BlockOffset(g, blocklen, b) - FetchOffset(stripeSizeKb, x)
            == b * blocklen - (FetchOffset(stripeSizeKb, x) - METADATA_SIZE)
  {
    var n := g.stripeBlockCount;
    BlockAt(g, imageSize, blocklen, stripeSizeKb, b);
    FetchAt(g, imageSize, blocklen, stripeSizeKb, x);
    FetchAt(g, imageSize, blocklen, stripeSizeKb, x + 1);
    Scaled(n * x, b, blocklen);
    Scaled(n * (x + 1), b, blocklen);
    Quotient(b, n, x);
  }

  lemma Scaled(a: nat, b: nat, d: nat)
    requires 0 < d
    ensures a <= b <==> a * d <= b * d
  {
    if a <= b {
      MulMonotone(a, b, d);
    } else {
      MulMonotone(b + 1, a, d);
      assert (b + 1) * d == b * d + d;
    }
  }

  lemma Quotient(b: nat, n: nat, x: nat)
    requires 0 < n
    ensures b / n == x <==> n * x <= b < n * (x + 1)
  {
    var q := b / n;
    assert q * n <= b < (q + 1) * n;
    if n * x <= b < n * (x + 1) {
      MulCancels(x, q + 1, n);
      MulCancels(q, x + 1, n);
    }
  }

  lemma AllBelow(m: nat, n: nat, k: nat)
    requires 0 < n
    ensures (forall b: nat | b < m :: b / n < k) <==> m <= n * k
  {
    if m <= n * k {
      forall b: nat | b < m
        ensures b / n < k
      {
        assert (b / n) * n <= b;
        MulCancels(b / n, k, n);
      }
    } else {
      Quotient(n * k, n, k);
      assert (n * k) / n == k;
    }
  }

  lemma RoundedBelow(size: nat, m: nat, top: nat, d: nat)
    requires 0 < d && (m - 1) * d < size <= m * d
    ensures size <= top * d <==> m <= top
  {
    Scaled(m, top, d);
    if top < m {
      Scaled(top, m - 1, d);
    }
  }

  // ---------------------------------------------------------------- what is assumed of a configuration

  /** The configuration of a bdev with these parameters. */
  ghost predicate Derives(g: Geometry, imageSize: nat, blocklen: nat, blockcnt: nat, stripeSizeKb: nat, cfg: Config)
    requires 0 < blocklen
  {
    && cfg.stripeSizeKb == stripeSizeKb && cfg.stripeBlocks == g.stripeBlockCount
    && cfg.blocks + g.dataOffsetBlocks == blockcnt && |cfg.base| == cfg.blocks
    && |cfg.image| == g.imageBlockCount && (cfg.partialEnd <==> imageSize % blocklen != 0)
  }

  lemma ImageWithin(g: Geometry, imageSize: nat, blocklen: nat, blockcnt: nat, stripeSizeKb: nat)
    requires 0 < blocklen && Fitted(g, imageSize, blocklen, stripeSizeKb) && g.dataOffsetBlocks <= blockcnt
    ensures imageSize + METADATA_SIZE <= blockcnt * blocklen <==> g.imageBlockCount <= blockcnt - g.dataOffsetBlocks
  {
    var top := blockcnt - g.dataOffsetBlocks;
    assert blockcnt * blocklen == top * blocklen + g.dataOffsetBlocks * blocklen;
    RoundedBelow(imageSize, g.imageBlockCount, top, blocklen);
  }

  /** The status table has an entry for every stripe of the device. */
  lemma TableSuffices(cfg: Config)
    requires 0 < cfg.stripeBlocks && |cfg.base| == cfg.blocks
    ensures ConfigOk(cfg) <==> |cfg.image| <= cfg.blocks <= cfg.stripeBlocks * MAX_STRIPES
  {
    AllBelow(cfg.blocks, cfg.stripeBlocks, MAX_STRIPES);
    if forall b: nat | b < cfg.blocks :: Stripe(cfg, b) < MAX_STRIPES {
      forall b: nat | b < cfg.blocks
        ensures b / cfg.stripeBlocks < MAX_STRIPES
      {
        assert Stripe(cfg, b) < MAX_STRIPES;
      }
    } else {
      var b: nat :| b < cfg.blocks && Stripe(cfg, b) >= MAX_STRIPES;
      assert b / cfg.stripeBlocks >= MAX_STRIPES;
    }
  }

  /**
   What everything else assumes of a configuration holds if and only if the image and the metadata fit on the
   base device and the status table has an entry for every stripe of the device, not just of the image.
   */
  lemma ConfigOkIff(g: Geometry, imageSize: nat, blocklen: nat, blockcnt: nat, stripeSizeKb: nat, cfg: Config)
    requires 0 < blocklen && Fitted(g, imageSize, blocklen, stripeSizeKb)
    requires Derives(g, imageSize, blocklen, blockcnt, stripeSizeKb, cfg)
    ensures ConfigOk(cfg) <==>
            imageSize + 8388608 <= blockcnt * blocklen && cfg.blocks <= g.stripeBlockCount * 2097152
  {
    ImageWithin(g, imageSize, blocklen, blockcnt, stripeSizeKb);
    TableSuffices(cfg);
  }

  /** For accepted parameters, on devices and images of less than 2^64 bytes, only the table is left to check. */
  lemma AcceptedConfigOk(g: Geometry, imageSize: nat, blocklen: nat, blockcnt: nat, stripeSizeKb: nat, cfg: Config)
    requires 0 < blocklen && Accepted(imageSize, blocklen, blockcnt, stripeSizeKb)
    requires blockcnt * blocklen < UINT64 && imageSize + METADATA_SIZE < UINT64
    requires Fitted(g, imageSize, blocklen, stripeSizeKb)
    requires Derives(g, imageSize, blocklen, blockcnt, stripeSizeKb, cfg)
    ensures ConfigOk(cfg) <==> cfg.blocks <= g.stripeBlockCount * MAX_STRIPES
  {
    ConfigOkIff(g, imageSize, blocklen, blockcnt, stripeSizeKb, cfg);
  }

  /** Parameters that are accepted although the device has one block more than the table has entries for. */
  lemma TableTooSmall(g: Geometry, cfg: Config)
    requires Fitted(g, 1, 512, 64) && Derives(g, 1, 512, MAX_STRIPES * 128 + 16385, 64, cfg)
    ensures Accepted(1, 512, MAX_STRIPES * 128 + 16385, 64) && !ConfigOk(cfg)
    ensures Stripe(cfg, MAX_STRIPES * 128) == MAX_STRIPES && MAX_STRIPES * 128 < cfg.blocks
  {
    assert Pow2(6) == 64;
    assert g.stripeBlockCount == 128 && g.dataOffsetBlocks == 16384;
    ConfigOkIff(g, 1, 512, MAX_STRIPES * 128 + 16385, 64, cfg);
  }
}
