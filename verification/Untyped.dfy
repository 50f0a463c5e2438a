/** Boot: cutting regions into untyped blocks of a power of two bytes each. */
module Untyped {
  import opened Powers
  import opened Regions

  const MIN_UNTYPED_BITS: nat := 4
  const MAX_UNTYPED_BITS: nat := 47
  const GRAIN: nat := 16  // the size of the smallest untyped block

  /** A block of `Pow2(bits)` bytes. */
  datatype Block = Block(start: nat, bits: nat)

  function Extent(b: Block): Region { Region(b.start, b.start + Pow2(b.bits)) }

  ghost predicate IsAligned(x: nat, bits: nat) { Rem(x, Pow2(bits)) == 0 }

  // ----- leading and trailing zeros -----

  /** `63 - leading_zeros`. */
  function Log2(n: nat): (k: nat)
    requires n > 0
    ensures Pow2(k) <= n < 2 * Pow2(k)
  {
    if n == 1 then 0 else 1 + Log2(n / 2)
  }

  /** `trailing_zeros`. */
  function TrailingZeros(n: nat): nat
    requires n > 0
  {
    if n % 2 == 1 then 0 else 1 + TrailingZeros(n / 2)
  }

  lemma {:induction false} TrailingZerosAlign(n: nat)
    requires n > 0
    ensures IsAligned(n, TrailingZeros(n))
  {
    if n % 2 == 1 {
      DivUnique(n, 1, n, 0);
    } else {
      var h := n / 2;
      TrailingZerosAlign(h);
      var p := Pow2(TrailingZeros(h));
      DivMod(h, p);
      Assoc(2, Quot(h, p), p);
      DivUnique(n, 2 * p, Quot(h, p), 0);
    }
  }

  lemma AlignedDown(x: nat, bits: nat, fewer: nat)
    requires IsAligned(x, bits) && fewer <= bits
    ensures IsAligned(x, fewer)
  {
    var q := Quot(x, Pow2(bits));
    DivMod(x, Pow2(bits));
    PowAdd(bits - fewer, fewer);
    Assoc(q, Pow2(bits - fewer), Pow2(fewer));
    DivUnique(x, Pow2(fewer), q * Pow2(bits - fewer), 0);
  }

  lemma ZeroAligned(bits: nat)
    ensures IsAligned(0, bits)
  {
    DivUnique(0, Pow2(bits), 0, 0);
  }

  // ----- the size of the next block -----

  /** The largest block that starts at `start`, is aligned and ends by `end`. */
  function NextBits(start: nat, end: nat): nat
    requires start < end
  {
    var size := Log2(end - start);
    var size' := if size > MAX_UNTYPED_BITS then MAX_UNTYPED_BITS else size;
    if start != 0 && size' > TrailingZeros(start) then TrailingZeros(start) else size'
  }

  lemma {:induction false} PowMono(a: nat, b: nat)
    requires a <= b
    ensures Pow2(a) <= Pow2(b)
    decreases b
  {
    if a < b { PowMono(a, b - 1); }
  }

  lemma NextBlock(start: nat, end: nat)
    requires start < end
    ensures var bits := NextBits(start, end);
      && start + Pow2(bits) <= end && IsAligned(start, bits) && bits <= MAX_UNTYPED_BITS
  {
    var bits := NextBits(start, end);
    PowMono(bits, Log2(end - start));
    if start == 0 {
      ZeroAligned(bits);
    } else {
      TrailingZerosAlign(start);
      AlignedDown(start, TrailingZeros(start), bits);
    }
  }

  lemma {:induction false} AlignedTrailing(n: nat, bits: nat)
    requires n > 0 && IsAligned(n, bits)
    ensures bits <= TrailingZeros(n)
    decreases bits
  {
    if bits > 0 {
      var q, p := Quot(n, Pow2(bits)), Pow2(bits - 1);
      DivMod(n, Pow2(bits));
      Assoc(2, q, p);
      DivUnique(q * p, p, q, 0);
      AlignedTrailing(q * p, bits - 1);
    }
  }

  /** No larger block of an allowed size starts there, is aligned and fits. */
  lemma {:induction false} NextIsLargest(start: nat, end: nat, bits: nat)
    requires start < end && IsAligned(start, bits) && start + Pow2(bits) <= end && bits <= MAX_UNTYPED_BITS
    ensures bits <= NextBits(start, end)
  {
    var size := Log2(end - start);
    if bits > size { PowMono(size + 1, bits); }
    if start > 0 { AlignedTrailing(start, bits); }
  }

  // ----- grains: the smallest aligned blocks -----

  function GrainStart(x: nat): nat { x / GRAIN * GRAIN }

  /** The grain of `x` lies within the region. */
  predicate WholeGrain(x: nat, start: nat, end: nat) { start <= GrainStart(x) && GrainStart(x) + GRAIN <= end }

  /** A big block is made of whole grains. */
  lemma {:induction false} BigBlockGrains(start: nat, bits: nat)
    requires IsAligned(start, bits) && bits >= MIN_UNTYPED_BITS
    ensures start % GRAIN == 0 && Pow2(bits) % GRAIN == 0
  {
    AlignedDown(start, bits, 4);
    PowAdd(bits - 4, 4);
    PowSmall();
    DivUnique(Pow2(bits), 16, Pow2(bits - 4), 0);
  }

  /** A small block does not cross the end of a grain. */
  lemma {:induction false} SmallBlockGrain(start: nat, bits: nat)
    requires IsAligned(start, bits) && bits < MIN_UNTYPED_BITS
    ensures start % GRAIN + Pow2(bits) <= GRAIN
  {
    assert Pow2(0) == 1 && Pow2(1) == 2 && Pow2(2) == 4 && Pow2(3) == 8;
    hide Pow2;
    var k := start % GRAIN;
    if bits == 1 {
      assert k % 2 == 0;
    } else if bits == 2 {
      assert k % 4 == 0;
    } else if bits == 3 {
      assert k % 8 == 0;
    }
  }

  /** A small block starts a grain only if the grain does not fit. */
  lemma SmallAtGrain(start: nat, end: nat)
    requires start < end && start % GRAIN == 0 && NextBits(start, end) < MIN_UNTYPED_BITS
    ensures end - start < GRAIN
  {
    if start != 0 { TrailingFour(start); }
    if end - start >= GRAIN {
      var k := Log2(end - start);
      if k < 4 { PowMono(k + 1, 4); }
    }
  }

  lemma {:induction false} TrailingFour(n: nat)
    requires n > 0 && n % 16 == 0
    ensures TrailingZeros(n) >= 4
  {
    var k := n / 16;
    TrailingTwice(k);
    TrailingTwice(2 * k);
    TrailingTwice(4 * k);
    TrailingTwice(8 * k);
  }

  lemma {:induction false} TrailingTwice(n: nat)
    requires n > 0
    ensures TrailingZeros(2 * n) == 1 + TrailingZeros(n)
  {
  }

  // ----- cutting a region -----

  ghost predicate Covered(blocks: seq<Block>, x: nat) { exists i :: 0 <= i < |blocks| && Contains(Extent(blocks[i]), x) }

  predicate BlockOk(b: Block, lo: nat, hi: nat) {
    MIN_UNTYPED_BITS <= b.bits <= MAX_UNTYPED_BITS && Rem(b.start, Pow2(b.bits)) == 0 && lo <= b.start && b.start + Pow2(b.bits) <= hi
  }

  /** Aligned blocks of allowed sizes within the region, one after the other. */
  ghost predicate BlocksOk(blocks: seq<Block>, lo: nat, hi: nat) {
    && (forall i :: 0 <= i < |blocks| ==> BlockOk(blocks[i], lo, hi))
    && (forall i, j :: 0 <= i < j < |blocks| ==> blocks[i].start + Pow2(blocks[i].bits) <= blocks[j].start)
  }

  /** From `lo` to `cur`, exactly the whole grains of the region are in blocks; `cur` is at the
      start of a grain or in one that does not fit. */
  ghost predicate Tiled(blocks: seq<Block>, lo: nat, cur: nat, hi: nat) {
    && lo <= cur <= hi && BlocksOk(blocks, lo, cur)
    && (forall x: nat :: x < cur ==> (Covered(blocks, x) <==> lo <= x && WholeGrain(x, lo, hi)))
    && (cur % GRAIN == 0 || !WholeGrain(cur, lo, hi))
  }

  lemma CoveredMore(blocks: seq<Block>, b: Block, x: nat)
    ensures Covered(blocks + [b], x) <==> Covered(blocks, x) || Contains(Extent(b), x)
  {
    if Covered(blocks, x) {
      var i :| 0 <= i < |blocks| && Contains(Extent(blocks[i]), x);
      assert (blocks + [b])[i] == blocks[i];
    }
    assert (blocks + [b])[|blocks|] == b;
  }

  lemma GrainInside(x: nat, cur: nat, n: nat, lo: nat, hi: nat)
    requires cur % GRAIN == 0 && n % GRAIN == 0 && lo <= cur <= x < cur + n <= hi
    ensures WholeGrain(x, lo, hi) && (cur + n) % GRAIN == 0
  {
  }

  lemma GrainSame(x: nat, cur: nat, n: nat)
    requires cur % GRAIN + n <= GRAIN && cur <= x < cur + n
    ensures GrainStart(x) == GrainStart(cur)
    ensures (cur + n) % GRAIN == 0 || GrainStart(cur + n) == GrainStart(cur)
  {
  }

  lemma BlocksMore(blocks: seq<Block>, lo: nat, cur: nat, b: Block)
    requires BlocksOk(blocks, lo, cur) && lo <= cur && BlockOk(b, cur, cur + Pow2(b.bits))
    ensures BlocksOk(blocks + [b], lo, cur + Pow2(b.bits))
  {
    hide Pow2, Rem;
    forall i | 0 <= i < |blocks| ensures BlockOk(blocks[i], lo, cur + Pow2(b.bits)) {
      assert BlockOk(blocks[i], lo, cur);
    }
  }

  lemma TileBig(blocks: seq<Block>, lo: nat, cur: nat, hi: nat)
    requires Tiled(blocks, lo, cur, hi) && cur < hi && NextBits(cur, hi) >= MIN_UNTYPED_BITS
    ensures var bits := NextBits(cur, hi); cur + Pow2(bits) <= hi && Tiled(blocks + [Block(cur, bits)], lo, cur + Pow2(bits), hi)
  {
    var bits := NextBits(cur, hi);
    NextBlock(cur, hi);
    BigBlockGrains(cur, bits);
    hide NextBits, Pow2, Rem, WholeGrain, BlocksOk;
    BlocksMore(blocks, lo, cur, Block(cur, bits));
    GrainInside(cur, cur, Pow2(bits), lo, hi);
    hide Covered;
    forall x: nat | x < cur + Pow2(bits)
      ensures Covered(blocks + [Block(cur, bits)], x) <==> lo <= x && WholeGrain(x, lo, hi)
    {
      CoveredMore(blocks, Block(cur, bits), x);
      CoveredBelow(blocks, lo, cur, x);
      if cur <= x { GrainInside(x, cur, Pow2(bits), lo, hi); }
    }
  }

  lemma CoveredBelow(blocks: seq<Block>, lo: nat, cur: nat, x: nat)
    requires BlocksOk(blocks, lo, cur)
    ensures cur <= x ==> !Covered(blocks, x)
  {
  }

  lemma TileSmall(blocks: seq<Block>, lo: nat, cur: nat, hi: nat)
    requires Tiled(blocks, lo, cur, hi) && cur < hi && NextBits(cur, hi) < MIN_UNTYPED_BITS
    ensures var bits := NextBits(cur, hi); cur + Pow2(bits) <= hi && Tiled(blocks, lo, cur + Pow2(bits), hi)
  {
    var bits := NextBits(cur, hi);
    NextBlock(cur, hi);
    SmallBlockGrain(cur, bits);
    if cur % GRAIN == 0 {
      SmallAtGrain(cur, hi);
      assert !WholeGrain(cur, lo, hi);
    }
    BlocksWider(blocks, lo, cur, cur + Pow2(bits));
    hide NextBits, Pow2, Rem, GrainStart, BlocksOk, Covered;
    GrainSame(cur, cur, Pow2(bits));
    forall x: nat | x < cur + Pow2(bits) ensures Covered(blocks, x) <==> lo <= x && WholeGrain(x, lo, hi) {
      CoveredBelow(blocks, lo, cur, x);
      if cur <= x { GrainSame(x, cur, Pow2(bits)); }
    }
  }

  lemma BlocksWider(blocks: seq<Block>, lo: nat, cur: nat, end: nat)
    requires BlocksOk(blocks, lo, cur) && cur <= end
    ensures BlocksOk(blocks, lo, end)
  {
    hide Pow2, Rem;
    forall i | 0 <= i < |blocks| ensures BlockOk(blocks[i], lo, end) { assert BlockOk(blocks[i], lo, cur); }
  }

  lemma TileStart(lo: nat, hi: nat)
    requires lo <= hi
    ensures Tiled([], lo, lo, hi)
  {
  }

  /** The blocks that `create_untypeds_for_region` cuts a region into. */
  function Cut(start: nat, end: nat): seq<Block>
    decreases end - start
  {
    if start >= end then []
    else
      var bits := NextBits(start, end);
      (if bits >= MIN_UNTYPED_BITS then [Block(start, bits)] else []) + Cut(start + Pow2(bits), end)
  }

  lemma {:induction false} CutTiles(blocks: seq<Block>, lo: nat, cur: nat, hi: nat)
    requires Tiled(blocks, lo, cur, hi)
    ensures Tiled(blocks + Cut(cur, hi), lo, hi, hi)
    decreases hi - cur
  {
    hide NextBits, Tiled, Cut, Pow2;
    TiledBounds(blocks, lo, cur, hi);
    if cur == hi {
      CutNothing(hi);
      assert blocks + [] == blocks;
    } else {
      var bits := NextBits(cur, hi);
      CutStep(cur, hi);
      var rest := Cut(cur + Pow2(bits), hi);
      if bits >= MIN_UNTYPED_BITS {
        TileBig(blocks, lo, cur, hi);
        CutTiles(blocks + [Block(cur, bits)], lo, cur + Pow2(bits), hi);
        assert blocks + ([Block(cur, bits)] + rest) == blocks + [Block(cur, bits)] + rest;
      } else {
        TileSmall(blocks, lo, cur, hi);
        CutTiles(blocks, lo, cur + Pow2(bits), hi);
      }
    }
  }

  lemma {:induction false} CutNothing(end: nat)
    ensures Cut(end, end) == []
  {
  }

  lemma CutStep(start: nat, end: nat)
    requires start < end
    ensures var bits := NextBits(start, end); var rest := Cut(start + Pow2(bits), end);
      Pow2(bits) > 0 && Cut(start, end) == if bits >= MIN_UNTYPED_BITS then [Block(start, bits)] + rest else rest
  {
    hide NextBits;
    var rest := Cut(start + Pow2(NextBits(start, end)), end);
    assert [] + rest == rest;
  }

  lemma TiledBounds(blocks: seq<Block>, lo: nat, cur: nat, hi: nat)
    requires Tiled(blocks, lo, cur, hi)
    ensures lo <= cur <= hi
  {
  }

  /** No block can be made larger where it starts. */
  lemma {:induction false} CutLargest(start: nat, end: nat, i: nat, bits: nat)
    requires i < |Cut(start, end)| && bits <= MAX_UNTYPED_BITS
    requires var b := Cut(start, end)[i]; IsAligned(b.start, bits) && b.start + Pow2(bits) <= end
    ensures bits <= Cut(start, end)[i].bits
    decreases end - start
  {
    hide NextBits, IsAligned;
    if start >= end {
      assert false;
    } else {
      CutStep(start, end);
      var next := NextBits(start, end);
      if next >= MIN_UNTYPED_BITS && i == 0 {
        NextIsLargest(start, end, bits);
      } else {
        CutLargest(start + Pow2(next), end, if next >= MIN_UNTYPED_BITS then i - 1 else i, bits);
      }
    }
  }

  /** The blocks are aligned, of allowed sizes, do not overlap, and cover exactly the whole grains
      of the region. */
  lemma {:induction false} CutExact(lo: nat, hi: nat)
    requires lo <= hi
    ensures BlocksOk(Cut(lo, hi), lo, hi)
    ensures forall x: nat :: Covered(Cut(lo, hi), x) <==> WholeGrain(x, lo, hi)
  {
    TileStart(lo, hi);
    CutTiles([], lo, lo, hi);
    assert [] + Cut(lo, hi) == Cut(lo, hi);
    hide BlocksOk;
    forall x: nat ensures Covered(Cut(lo, hi), x) <==> WholeGrain(x, lo, hi) {
      CoveredBelow(Cut(lo, hi), lo, hi, x);
    }
  }

  // ----- providing capabilities -----

  /** What is left at boot: `entries` of the boot information and `slots` of the root CNode for
      untyped blocks, and the kernel window, where all but device memory must lie. */
  datatype Limits = Limits(entries: nat, slots: nat, window: Region)

  predicate Visible(limits: Limits, device: bool, b: Block) {
    device || (Contains(limits.window, b.start) && Contains(limits.window, b.start + Pow2(b.bits) - 1))
  }

  /** The blocks provided and whether all went well, once `blocks` follow those `done`: without an
      entry a block is silently left out, without a slot the boot fails. */
  function Provide(limits: Limits, device: bool, done: seq<Block>, blocks: seq<Block>): (seq<Block>, bool)
    decreases |blocks|
  {
    if blocks == [] then (done, true)
    else if !Visible(limits, device, blocks[0]) then (done, false)
    else if |done| >= limits.entries then Provide(limits, device, done, blocks[1..])
    else if |done| >= limits.slots then (done, false)
    else Provide(limits, device, done + [blocks[0]], blocks[1..])
  }

  /** As many are provided, in order, as there are entries and slots for; it fails exactly if the
      slots run out first. */
  lemma {:induction false} ProvidedPrefix(limits: Limits, device: bool, done: seq<Block>, blocks: seq<Block>)
    requires forall i :: 0 <= i < |blocks| ==> Visible(limits, device, blocks[i])
    requires |done| <= Min(limits.entries, limits.slots)
    ensures var (provided, ok) := Provide(limits, device, done, blocks);
      && provided == done + blocks[..Min(|blocks|, Min(limits.entries, limits.slots) - |done|)]
      && (ok <==> limits.entries <= limits.slots || |done| + |blocks| <= limits.slots)
    decreases |blocks|
  {
    hide Visible;
    if blocks == [] {
      assert done + blocks[..0] == done;
    } else if |done| >= limits.entries {
      ProvidedPrefix(limits, device, done, blocks[1..]);
      assert blocks[1..][..0] == blocks[..0] == [];
    } else if |done| < limits.slots {
      ProvidedPrefix(limits, device, done + [blocks[0]], blocks[1..]);
      var k := Min(|blocks|, Min(limits.entries, limits.slots) - |done|);
      assert done + blocks[..k] == done + [blocks[0]] + blocks[1..][..k - 1];
    } else {
      assert done + blocks[..0] == done;
    }
  }

  lemma {:induction false} ProvideConcat(limits: Limits, device: bool, done: seq<Block>, a: seq<Block>, b: seq<Block>)
    ensures var (provided, ok) := Provide(limits, device, done, a);
      Provide(limits, device, done, a + b) == if ok then Provide(limits, device, provided, b) else (provided, false)
    decreases |a|
  {
    hide Visible;
    if a == [] {
      assert a + b == b;
    } else {
      assert (a + b)[0] == a[0] && (a + b)[1..] == a[1..] + b;
      ProvideConcat(limits, device, done, a[1..], b);
      ProvideConcat(limits, device, done + [a[0]], a[1..], b);
    }
  }

  /** A block that the kernel cannot see ends it with an error, whatever comes behind. */
  lemma {:induction false} InvisibleStops(limits: Limits, device: bool, done: seq<Block>, a: seq<Block>, b: Block, c: seq<Block>)
    requires !Visible(limits, device, b)
    ensures Provide(limits, device, done, a + ([b] + c)) == (Provide(limits, device, done, a).0, false)
  {
    hide Visible;
    ProvideConcat(limits, device, done, a, [b] + c);
  }

  /** `provide_untyped_cap`. */
  method ProvideUntypedCap(limits: Limits, device: bool, b: Block, done: seq<Block>) returns (provided: seq<Block>, ok: bool)
    ensures (provided, ok) ==
      if IsAligned(b.start, b.bits) && MIN_UNTYPED_BITS <= b.bits <= MAX_UNTYPED_BITS then Provide(limits, device, done, [b]) else (done, false)
  {
    assert [b][1..] == [];
    if b.bits > MAX_UNTYPED_BITS || b.bits < MIN_UNTYPED_BITS {
      return done, false;
    }
    if Rem(b.start, Pow2(b.bits)) != 0 {
      return done, false;
    }
    if !device && !Contains(limits.window, b.start) {
      return done, false;
    }
    if !device && !Contains(limits.window, b.start + Pow2(b.bits) - 1) {
      return done, false;
    }
    if |done| < limits.entries {
      if |done| >= limits.slots {
        return done, false;
      }
      return done + [b], true;
    }
    return done, true;
  }

  /** `create_untypeds_for_region`; the checks of size and alignment never fail. */
  method CreateUntypedsForRegion(limits: Limits, device: bool, reg: Region, done: seq<Block>) returns (provided: seq<Block>, ok: bool)
    requires reg.start <= reg.end
    ensures (provided, ok) == Provide(limits, device, done, Cut(reg.start, reg.end))
  {
    hide NextBits, Provide, Cut, Pow2;
    provided := done;
    var start := reg.start;
    while start != reg.end
      invariant start <= reg.end
      invariant Provide(limits, device, provided, Cut(start, reg.end)) == Provide(limits, device, done, Cut(reg.start, reg.end))
      decreases reg.end - start
    {
      NextBlock(start, reg.end);
      CutOff(limits, device, provided, start, reg.end);
      var bits := NextBits(start, reg.end);
      if bits >= MIN_UNTYPED_BITS {
        provided, ok := ProvideUntypedCap(limits, device, Block(start, bits), provided);
        if !ok {
          return;
        }
      }
      start := start + Pow2(bits);
    }
    NothingToProvide(limits, device, provided, start);
    ok := true;
  }

  lemma {:induction false} NothingToProvide(limits: Limits, device: bool, done: seq<Block>, end: nat)
    ensures Provide(limits, device, done, Cut(end, end)) == (done, true)
  {
  }

  /** Providing the next piece, if it is a block, and then the rest. */
  lemma CutOff(limits: Limits, device: bool, done: seq<Block>, start: nat, end: nat)
    requires start < end
    ensures var bits := NextBits(start, end); var rest := Cut(start + Pow2(bits), end);
      Pow2(bits) > 0 && Provide(limits, device, done, Cut(start, end)) ==
        if bits < MIN_UNTYPED_BITS then Provide(limits, device, done, rest)
        else var (provided, ok) := Provide(limits, device, done, [Block(start, bits)]);
             if ok then Provide(limits, device, provided, rest) else (provided, false)
  {
    hide NextBits, Provide, Cut;
    var bits := NextBits(start, end);
    CutStep(start, end);
    if bits >= MIN_UNTYPED_BITS { ProvideConcat(limits, device, done, [Block(start, bits)], Cut(start + Pow2(bits), end)); }
  }

  // ----- device memory: everything that is not reserved -----

  const PADDR_USER_DEVICE_TOP: nat := 0x100_0000_0000

  /** The gaps between the reserved regions from `start` on, and the rest below the top. */
  function Gaps(reserved: seq<Region>, start: nat): seq<Region> {
    if reserved != [] then [Region(start, reserved[0].start)] + Gaps(reserved[1..], reserved[0].end)
    else if start < PADDR_USER_DEVICE_TOP then [Region(start, PADDR_USER_DEVICE_TOP)]
    else []
  }

  /** The end of device memory: the fixed top, or the end of the last reserved region above it. */
  function DeviceEnd(reserved: seq<Region>, start: nat): nat {
    if reserved != [] then DeviceEnd(reserved[1..], reserved[0].end)
    else if start < PADDR_USER_DEVICE_TOP then PADDR_USER_DEVICE_TOP
    else start
  }

  /** The gaps are exactly what is not reserved. */
  lemma {:induction false} GapsAreUnreserved(reserved: seq<Region>, start: nat, x: int)
    requires Ascending(reserved) && (reserved != [] ==> start <= reserved[0].start)
    ensures Covers(Gaps(reserved, start), x) <==> start <= x < DeviceEnd(reserved, start) && !Covers(reserved, x)
    ensures start <= DeviceEnd(reserved, start)
    decreases |reserved|
  {
    if reserved == [] {
      CoversOne(Region(start, PADDR_USER_DEVICE_TOP), x);
    } else {
      GapsAreUnreserved(reserved[1..], reserved[0].end, x);
      assert reserved == [reserved[0]] + reserved[1..];
      CoversConcat([reserved[0]], reserved[1..], x);
      CoversOne(reserved[0], x);
      CoversConcat([Region(start, reserved[0].start)], Gaps(reserved[1..], reserved[0].end), x);
      CoversOne(Region(start, reserved[0].start), x);
      assert x < reserved[0].end ==> !Covers(reserved[1..], x);
    }
  }

  /** The grain of `x` lies within a gap, as seen by the kernel at `offset`. */
  ghost predicate InGap(gaps: seq<Region>, offset: nat, x: nat) {
    exists i :: 0 <= i < |gaps| && WholeGrain(x, gaps[i].start + offset, gaps[i].end + offset)
  }

  lemma InGapMore(g: Region, gaps: seq<Region>, offset: nat, x: nat)
    ensures InGap([g] + gaps, offset, x) <==> WholeGrain(x, g.start + offset, g.end + offset) || InGap(gaps, offset, x)
  {
    if InGap(gaps, offset, x) {
      var i :| 0 <= i < |gaps| && WholeGrain(x, gaps[i].start + offset, gaps[i].end + offset);
      assert ([g] + gaps)[i + 1] == gaps[i];
    }
    assert ([g] + gaps)[0] == g;
  }

  lemma CoveredConcat(b: seq<Block>, c: seq<Block>, x: nat)
    ensures Covered(b + c, x) <==> Covered(b, x) || Covered(c, x)
  {
    if Covered(b, x) {
      var i :| 0 <= i < |b| && Contains(Extent(b[i]), x);
      assert (b + c)[i] == b[i];
    }
    if Covered(c, x) {
      var i :| 0 <= i < |c| && Contains(Extent(c[i]), x);
      assert (b + c)[|b| + i] == c[i];
    }
  }

  lemma BlocksConcat(b: seq<Block>, c: seq<Block>, lo: nat, mid: nat, hi: nat)
    requires lo <= mid <= hi && BlocksOk(b, lo, mid) && BlocksOk(c, mid, hi)
    ensures BlocksOk(b + c, lo, hi)
  {
    hide Pow2, Rem;
    forall i | 0 <= i < |b + c| ensures BlockOk((b + c)[i], lo, hi) {
      if i < |b| { assert BlockOk(b[i], lo, mid); } else { assert BlockOk(c[i - |b|], mid, hi); }
    }
    forall i, j | 0 <= i < j < |b + c| ensures (b + c)[i].start + Pow2((b + c)[i].bits) <= (b + c)[j].start {
      if i < |b| <= j {
        assert BlockOk(b[i], lo, mid) && BlockOk(c[j - |b|], mid, hi);
      }
    }
  }

  /** All blocks of the gaps, as seen by the kernel at `offset`. */
  function CutAll(gaps: seq<Region>, offset: nat): seq<Block> {
    if gaps == [] then [] else Cut(gaps[0].start + offset, gaps[0].end + offset) + CutAll(gaps[1..], offset)
  }

  /** The blocks of the gaps are aligned, do not overlap, and cover exactly the whole grains of
      the gaps. */
  lemma {:induction false} DeviceBlocks(reserved: seq<Region>, start: nat, offset: nat)
    requires Ascending(reserved) && (reserved != [] ==> start <= reserved[0].start)
    ensures start <= DeviceEnd(reserved, start)
    ensures BlocksOk(CutAll(Gaps(reserved, start), offset), start + offset, DeviceEnd(reserved, start) + offset)
    ensures forall x: nat :: Covered(CutAll(Gaps(reserved, start), offset), x) <==> InGap(Gaps(reserved, start), offset, x)
    decreases |reserved|
  {
    hide BlocksOk, WholeGrain, Covered, InGap, Cut;
    var gaps := Gaps(reserved, start);
    GapsAreUnreserved(reserved, start, start);
    if reserved != [] {
      var rest := Gaps(reserved[1..], reserved[0].end);
      assert gaps == [gaps[0]] + rest;
      DeviceBlocks(reserved[1..], reserved[0].end, offset);
      DeviceMore(gaps[0], rest, offset, reserved[0].end, DeviceEnd(reserved, start));
    } else if start < PADDR_USER_DEVICE_TOP {
      assert gaps == [gaps[0]] + [];
      NoBlocks(PADDR_USER_DEVICE_TOP, offset);
      DeviceMore(gaps[0], [], offset, PADDR_USER_DEVICE_TOP, PADDR_USER_DEVICE_TOP);
    } else {
      NoBlocks(start, offset);
    }
  }

  lemma {:induction false} DeviceMore(g: Region, rest: seq<Region>, offset: nat, next: nat, end: nat)
    requires g.start <= g.end <= next <= end
    requires BlocksOk(CutAll(rest, offset), next + offset, end + offset)
    requires forall x: nat :: Covered(CutAll(rest, offset), x) <==> InGap(rest, offset, x)
    ensures BlocksOk(CutAll([g] + rest, offset), g.start + offset, end + offset)
    ensures forall x: nat :: Covered(CutAll([g] + rest, offset), x) <==> InGap([g] + rest, offset, x)
  {
    hide BlocksOk, WholeGrain, Covered, Cut, InGap;
    var cut := Cut(g.start + offset, g.end + offset);
    assert ([g] + rest)[1..] == rest;
    CutExact(g.start + offset, g.end + offset);
    BlocksWider(cut, g.start + offset, g.end + offset, next + offset);
    BlocksConcat(cut, CutAll(rest, offset), g.start + offset, next + offset, end + offset);
    forall x: nat ensures Covered(CutAll([g] + rest, offset), x) <==> InGap([g] + rest, offset, x) {
      CoveredConcat(cut, CutAll(rest, offset), x);
      InGapMore(g, rest, offset, x);
    }
  }

  lemma {:induction false} NoBlocks(start: nat, offset: nat)
    ensures BlocksOk(CutAll([], offset), start + offset, start + offset)
    ensures forall x: nat :: Covered(CutAll([], offset), x) <==> InGap([], offset, x)
  {
  }

  /** The device part of `create_untypeds`, for the list of reserved regions. */
  method CreateDeviceUntypeds(limits: Limits, reserved: seq<Region>, offset: nat) returns (provided: seq<Block>, ok: bool)
    requires Ascending(reserved)
    ensures (provided, ok) == Provide(limits, true, [], CutAll(Gaps(reserved, 0), offset))
  {
    hide Provide, Cut;
    provided := [];
    var start: nat := 0;
    for i := 0 to |reserved|
      invariant start <= (if i < |reserved| then reserved[i].start else start)
      invariant Provide(limits, true, provided, CutAll(Gaps(reserved[i..], start), offset)) ==
                Provide(limits, true, [], CutAll(Gaps(reserved, 0), offset))
    {
      assert reserved[i..][1..] == reserved[i + 1..];
      var reg := Region(start + offset, reserved[i].start + offset);
      NextGap(limits, provided, reserved[i..], start, offset);
      provided, ok := CreateUntypedsForRegion(limits, true, reg, provided);
      if !ok {
        return;
      }
      start := reserved[i].end;
    }
    assert reserved[|reserved|..] == [];
    LastGap(limits, provided, start, offset);
    if start < PADDR_USER_DEVICE_TOP {
      var reg := Region(start + offset, PADDR_USER_DEVICE_TOP + offset);
      provided, ok := CreateUntypedsForRegion(limits, true, reg, provided);
      if !ok {
        return;
      }
    }
    ok := true;
  }

  lemma {:induction false} NextGap(limits: Limits, done: seq<Block>, reserved: seq<Region>, start: nat, offset: nat)
    requires reserved != []
    ensures var rest := CutAll(Gaps(reserved[1..], reserved[0].end), offset);
      var (provided, ok) := Provide(limits, true, done, Cut(start + offset, reserved[0].start + offset));
      Provide(limits, true, done, CutAll(Gaps(reserved, start), offset)) == if ok then Provide(limits, true, provided, rest) else (provided, false)
  {
    hide Provide, Cut;
    var gaps := Gaps(reserved, start);
    assert gaps[0] == Region(start, reserved[0].start) && gaps[1..] == Gaps(reserved[1..], reserved[0].end);
    ProvideConcat(limits, true, done, Cut(start + offset, reserved[0].start + offset), CutAll(gaps[1..], offset));
  }

  lemma {:induction false} LastGap(limits: Limits, done: seq<Block>, start: nat, offset: nat)
    ensures Provide(limits, true, done, CutAll(Gaps([], start), offset)) ==
      if start < PADDR_USER_DEVICE_TOP then Provide(limits, true, done, Cut(start + offset, PADDR_USER_DEVICE_TOP + offset)) else (done, true)
  {
    hide Cut;
    var gaps := Gaps([], start);
    if start < PADDR_USER_DEVICE_TOP {
      var cut := Cut(start + offset, PADDR_USER_DEVICE_TOP + offset);
      assert gaps[1..] == [] && CutAll(gaps, offset) == cut + [] == cut;
    }
  }

  ghost predicate Unreserved(reserved: seq<Region>, lo: int, hi: int) { forall x :: lo <= x < hi ==> !Covers(reserved, x) }

  /** An unreserved range lies within one gap. */
  lemma {:induction false} RangeInGap(reserved: seq<Region>, start: nat, lo: nat, hi: nat) returns (i: nat)
    requires Ascending(reserved) && NoneEmpty(reserved) && (reserved != [] ==> start <= reserved[0].start)
    requires start <= lo < hi <= DeviceEnd(reserved, start) && Unreserved(reserved, lo, hi)
    ensures i < |Gaps(reserved, start)| && Gaps(reserved, start)[i].start <= lo && hi <= Gaps(reserved, start)[i].end
    decreases |reserved|
  {
    if reserved == [] || hi <= reserved[0].start {
      i := 0;
    } else {
      var x := if lo < reserved[0].start then reserved[0].start else lo;
      assert Contains(reserved[0], x) ==> Covers(reserved, x);
      forall y | lo <= y < hi ensures !Covers(reserved[1..], y) {
        assert reserved == [reserved[0]] + reserved[1..];
        CoversConcat([reserved[0]], reserved[1..], y);
      }
      i := RangeInGap(reserved[1..], reserved[0].end, lo, hi);
      i := i + 1;
    }
  }

  /** Device blocks avoid all reserved memory and leave out only grains that are not wholly
      unreserved device memory. */
  lemma {:induction false} DeviceExact(reserved: seq<Region>, offset: nat, x: nat)
    requires Ascending(reserved) && NoneEmpty(reserved)
    ensures InGap(Gaps(reserved, 0), offset, x) <==>
      var g := GrainStart(x) - offset; 0 <= g && g + GRAIN <= DeviceEnd(reserved, 0) && Unreserved(reserved, g, g + GRAIN)
  {
    var gaps, g := Gaps(reserved, 0), GrainStart(x) - offset;
    if InGap(gaps, offset, x) {
      var i :| 0 <= i < |gaps| && WholeGrain(x, gaps[i].start + offset, gaps[i].end + offset);
      forall z | g <= z < g + GRAIN ensures 0 <= z < DeviceEnd(reserved, 0) && !Covers(reserved, z) {
        assert Contains(gaps[i], z);
        GapsAreUnreserved(reserved, 0, z);
      }
      assert Contains(gaps[i], g + GRAIN - 1);
      GapsAreUnreserved(reserved, 0, g + GRAIN - 1);
    }
    if 0 <= g && g + GRAIN <= DeviceEnd(reserved, 0) && Unreserved(reserved, g, g + GRAIN) {
      var i := RangeInGap(reserved, 0, g, g + GRAIN);
      assert WholeGrain(x, gaps[i].start + offset, gaps[i].end + offset);
    }
  }
}
