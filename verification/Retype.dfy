/** Retyping untyped memory: resetting a used block, which can be preempted after every chunk,
    and placing new objects behind the old ones. */
module Retype {
  import opened Powers
  import opened Regions
  import Untyped

  const FREE_UNIT: nat := 16  // the free index counts these
  const RESET_CHUNK_BITS: nat := 8
  const CHUNK: int := 256

  newtype Byte = x: int | 0 <= x < 256

  // ----- placing objects -----

  /** `alignUp`. */
  function AlignUp(x: nat, bits: nat): nat { Quot(x + Pow2(bits) - 1, Pow2(bits)) * Pow2(bits) }

  lemma {:induction false} AlignUpLeast(x: nat, bits: nat)
    ensures x <= AlignUp(x, bits) < x + Pow2(bits)
  {
    DivMod(x + Pow2(bits) - 1, Pow2(bits));
  }

  lemma FewerMultiples(c: nat, q: nat, p: nat, x: nat)
    requires c * p < x + p && x <= q * p
    ensures c <= q && c * p <= q * p
  {
    if c > q { MulMono(q + 1, c, p); }
    MulMono(c, q, p);
  }

  /** It is the first aligned number from `x` on. */
  lemma {:induction false} AlignUpFirst(x: nat, bits: nat, y: nat)
    requires x <= y && Untyped.IsAligned(y, bits)
    ensures Untyped.IsAligned(AlignUp(x, bits), bits) && AlignUp(x, bits) <= y
  {
    hide Quot, Rem, Pow2;
    var c, p := Quot(x + Pow2(bits) - 1, Pow2(bits)), Pow2(bits);
    AlignUpLeast(x, bits);
    DivUnique(c * p, p, c, 0);
    DivMod(y, p);
    FewerMultiples(c, Quot(y, p), p, x);
  }

  /** The check that there is room counts from the free offset, the objects start at the next
      aligned address; still the check is exact. */
  lemma {:induction false} RoomIsExact(blockBits: nat, offset: nat, bits: nat, n: nat)
    requires bits <= blockBits && offset <= Pow2(blockBits)
    ensures Quot(Pow2(blockBits) - offset, Pow2(bits)) >= n <==> AlignUp(offset, bits) + n * Pow2(bits) <= Pow2(blockBits)
  {
    var p, m := Pow2(bits), Pow2(blockBits - bits);
    var c := Quot(offset + p - 1, p);
    PowAdd(blockBits - bits, bits);
    AlignUpLeast(offset, bits);
    Distrib(m, 1, p);
    if c > m { MulMono(m + 1, c, p); }
    var rest := c * p - offset;
    Distrib(m - c, c, p);
    DivUnique(m * p - offset, p, m - c, rest);
    Distrib(c, n, p);
    if n <= m - c { MulMono(c + n, m, p); }
    if n > m - c { MulMono(m + 1, c + n, p); }
  }

  /** With no object larger than the block, the check fails for every positive number. */
  lemma {:induction false} NoRoomForLarger(blockBits: nat, offset: nat, bits: nat)
    requires blockBits < bits && offset <= Pow2(blockBits)
    ensures Quot(Pow2(blockBits) - offset, Pow2(bits)) == 0
  {
    PowAdd(bits - blockBits, blockBits);
    assert Pow2(bits - blockBits) >= 2;
    MulMono(2, Pow2(bits - blockBits), Pow2(blockBits));
    DivUnique(Pow2(blockBits) - offset, Pow2(bits), 0, Pow2(blockBits) - offset);
  }

  lemma {:induction false} RoomCheck(blockBits: nat, offset: nat, bits: nat, n: nat)
    requires offset <= Pow2(blockBits) && n > 0
    ensures Quot(Pow2(blockBits) - offset, Pow2(bits)) < n <==>
      bits > blockBits || AlignUp(offset, bits) + n * Pow2(bits) > Pow2(blockBits)
  {
    if bits > blockBits { NoRoomForLarger(blockBits, offset, bits); } else { RoomIsExact(blockBits, offset, bits, n); }
  }

  /** Multiples of the size of an object are whole free units. */
  lemma {:induction false} WholeUnits(bits: nat, k: nat)
    requires bits >= Untyped.MIN_UNTYPED_BITS
    ensures k * Pow2(bits) == Quot(k * Pow2(bits), FREE_UNIT) * FREE_UNIT
  {
    PowAdd(bits - 4, 4);
    PowSmall();
    Assoc(k, Pow2(bits - 4), 16);
    DivUnique(k * Pow2(bits), 16, k * Pow2(bits - 4), 0);
  }

  /** The `i`-th of the new objects. */
  function Placed(base: nat, bits: nat, i: nat): Region { Region(base + i * Pow2(bits), base + (i + 1) * Pow2(bits)) }

  ghost function AllPlaced(base: nat, bits: nat, n: nat): seq<Region> { seq(n, i requires 0 <= i < n => Placed(base, bits, i)) }

  predicate AlignedObject(r: Region, bits: nat) { Rem(r.start, Pow2(bits)) == 0 && r.end == r.start + Pow2(bits) }

  /** Every new object starts at a multiple of its size. */
  lemma {:induction false} PlacedAligned(from: nat, bits: nat, i: nat)
    ensures AlignedObject(Placed(AlignUp(from, bits), bits, i), bits)
  {
    var c, p := Quot(from + Pow2(bits) - 1, Pow2(bits)), Pow2(bits);
    Distrib(c, i, p);
    Distrib(i, 1, p);
    DivUnique((c + i) * p, p, c + i, 0);
  }

  /** So it does in memory, because the block does. */
  lemma {:induction false} AlignedInMemory(block: nat, blockBits: nat, r: Region, bits: nat)
    requires Untyped.IsAligned(block, blockBits) && bits <= blockBits && AlignedObject(r, bits)
    ensures Untyped.IsAligned(block + r.start, bits)
  {
    var p := Pow2(bits);
    Untyped.AlignedDown(block, blockBits, bits);
    DivMod(block, p);
    DivMod(r.start, p);
    Distrib(Quot(block, p), Quot(r.start, p), p);
    DivUnique(block + r.start, p, Quot(block, p) + Quot(r.start, p), 0);
  }

  /** Objects do not overlap and lie below `end`. */
  ghost predicate ObjectsOk(objects: seq<Region>, end: nat) {
    && (forall i :: 0 <= i < |objects| ==> objects[i].start < objects[i].end <= end)
    && (forall i, j :: 0 <= i < j < |objects| ==> !Overlap(objects[i], objects[j]))
  }

  lemma {:induction false} PlacedOk(base: nat, bits: nat, n: nat, i: nat, j: nat)
    requires i < j < n
    ensures Placed(base, bits, i).start < Placed(base, bits, i).end <= Placed(base, bits, j).start
    ensures Placed(base, bits, j).start < Placed(base, bits, j).end <= base + n * Pow2(bits)
  {
    MulMono(i + 1, j, Pow2(bits));
    Distrib(i, 1, Pow2(bits));
    Distrib(j, 1, Pow2(bits));
    MulMono(j + 1, n, Pow2(bits));
  }

  lemma {:induction false} PlacedInside(base: nat, bits: nat, n: nat, i: nat)
    requires i < n
    ensures base <= Placed(base, bits, i).start < Placed(base, bits, i).end <= base + n * Pow2(bits)
  {
    Distrib(i, 1, Pow2(bits));
    MulMono(i + 1, n, Pow2(bits));
  }

  /** New objects above the free offset do not meet old ones, nor each other. */
  lemma {:induction false} MoreObjects(objects: seq<Region>, offset: nat, base: nat, bits: nat, n: nat)
    requires ObjectsOk(objects, offset) && offset <= base
    ensures ObjectsOk(objects + AllPlaced(base, bits, n), base + n * Pow2(bits))
  {
    var all := objects + AllPlaced(base, bits, n);
    hide Placed;
    forall i | 0 <= i < |all| ensures all[i].start < all[i].end <= base + n * Pow2(bits) {
      if i >= |objects| { PlacedInside(base, bits, n, i - |objects|); }
    }
    forall i, j | 0 <= i < j < |all| ensures !Overlap(all[i], all[j]) {
      if i >= |objects| {
        PlacedOk(base, bits, n, i - |objects|, j - |objects|);
      } else if j >= |objects| {
        PlacedInside(base, bits, n, j - |objects|);
      }
    }
  }

  lemma NewAreAligned(objects: seq<Region>, from: nat, bits: nat, n: nat)
    ensures var all := objects + AllPlaced(AlignUp(from, bits), bits, n);
      forall i :: |objects| <= i < |all| ==> AlignedObject(all[i], bits)
  {
    hide AlignUp, AlignedObject;
    var all := objects + AllPlaced(AlignUp(from, bits), bits, n);
    forall i | |objects| <= i < |all| ensures AlignedObject(all[i], bits) {
      PlacedAligned(from, bits, i - |objects|);
    }
  }

  /** A block of at least one chunk is made of whole chunks. */
  lemma {:induction false} WholeChunks(bits: nat)
    requires bits >= RESET_CHUNK_BITS
    ensures Pow2(bits) % CHUNK == 0
  {
    PowAdd(bits - 8, 8);
    PowSmall();
    DivUnique(Pow2(bits), 256, Pow2(bits - 8), 0);
  }

  /** `round_down!` to a chunk. */
  function RoundDown(x: nat): nat { x / CHUNK * CHUNK }

  /** `OFFSET_TO_FREE_IDNEX`. */
  function FreeIndexOf(offset: nat): nat { offset / FREE_UNIT }

  lemma ChunkIndex(c: nat)
    ensures FreeIndexOf(c * CHUNK) * FREE_UNIT == c * CHUNK
  {
  }

  /** The chunk with the last byte in use. */
  lemma LastChunk(offset: nat, length: nat)
    requires 0 < offset <= length && length % CHUNK == 0
    ensures var start := RoundDown(offset - 1); 0 <= start < offset <= start + CHUNK <= length && exists c :: start == c * CHUNK
  {
    assert RoundDown(offset - 1) == ((offset - 1) / CHUNK) * CHUNK;
  }

  datatype Outcome = Done | Preempted | NotEnoughMemory

  /** An untyped block: its bytes, and up to where they are in use. */
  class UntypedBlock {
    const bits: nat
    const isDevice: bool
    const mem: array<Byte>
    var freeIndex: nat
    ghost var objects: seq<Region>  // the objects made since the last reset, by offset

    function Offset(): nat
      reads this`freeIndex
    {
      freeIndex * FREE_UNIT
    }

    predicate Sized()
      reads this`freeIndex
    {
      bits >= Untyped.MIN_UNTYPED_BITS && mem.Length == Pow2(bits) && Offset() <= mem.Length
    }

    /** Bytes above the free offset are zero, unless this is device memory; objects lie below
        it and do not overlap. */
    ghost predicate Valid()
      reads this, mem
    {
      && Sized() && ObjectsOk(objects, Offset())
      && (!isDevice ==> forall x :: Offset() <= x < mem.Length ==> mem[x] == 0)
    }

    /** A fresh block. */
    constructor (bits: nat, isDevice: bool)
      requires bits >= Untyped.MIN_UNTYPED_BITS
      ensures Valid() && freeIndex == 0 && objects == [] && this.bits == bits && this.isDevice == isDevice && fresh(mem)
    {
      this.bits := bits;
      this.isDevice := isDevice;
      mem := new Byte[Pow2(bits)](_ => 0);
      freeIndex := 0;
      objects := [];
    }

    /** `clear_memory`. */
    method ClearMemory(from: nat, n: nat)
      requires from + n <= mem.Length
      modifies mem
      ensures forall x :: 0 <= x < mem.Length ==> mem[x] == if from <= x < from + n then 0 else old(mem[x])
    {
      for i := from to from + n
        invariant forall x :: 0 <= x < mem.Length ==> mem[x] == if from <= x < i then 0 else old(mem[x])
      {
        mem[i] := 0;
      }
    }

    /** `reset_untyped_cap`, when nothing made from the block is left; `preempt` says which of
        the preemption points fire.  Every call that does not finish gets somewhere. */
    method Reset(preempt: seq<bool>) returns (outcome: Outcome)
      requires Valid() && objects == []
      modifies this`freeIndex, mem
      ensures Valid() && (outcome == Done || outcome == Preempted)
      ensures outcome == Done ==> freeIndex == 0
      ensures outcome == Preempted ==> freeIndex < old(freeIndex)
      ensures isDevice ==> mem[..] == old(mem[..])
    {
      if Offset() == 0 {
        return Done;
      }
      if isDevice || bits < RESET_CHUNK_BITS {
        if !isDevice {
          ClearMemory(0, mem.Length);
        }
        freeIndex := 0;
        return Done;
      }
      outcome := ResetChunks(preempt);
    }

    /** The preemptible part of `reset_untyped_cap`: chunk by chunk, from the top down. */
    method ResetChunks(preempt: seq<bool>) returns (outcome: Outcome)
      requires Valid() && objects == [] && !isDevice && bits >= RESET_CHUNK_BITS && freeIndex > 0
      modifies this`freeIndex, mem
      ensures Valid() && (outcome == Done || outcome == Preempted)
      ensures outcome == Done ==> freeIndex == 0
      ensures outcome == Preempted ==> freeIndex < old(freeIndex)
    {
      WholeChunks(bits);
      LastChunk(Offset(), mem.Length);
      hide Pow2, RoundDown, FreeIndexOf;
      var offset: int := RoundDown(Offset() - 1);
      ghost var c: int :| offset == c * CHUNK;
      var k := 0;
      while offset != -CHUNK
        invariant -CHUNK <= offset == c * CHUNK && offset + CHUNK <= mem.Length && Sized()
        invariant if k == 0 then freeIndex == old(freeIndex) && 0 <= offset < Offset() <= offset + CHUNK
                  else freeIndex < old(freeIndex) && Offset() == offset + CHUNK
        invariant forall x :: 0 <= x < mem.Length && (if k == 0 then Offset() else offset + CHUNK) <= x ==> mem[x] == 0
        decreases offset + CHUNK
      {
        ClearMemory(offset, CHUNK);
        ChunkIndex(c);
        freeIndex := FreeIndexOf(offset);
        if k < |preempt| && preempt[k] {
          return Preempted;
        }
        k, offset, c := k + 1, offset - CHUNK, c - 1;
      }
      return Done;
    }

    /** However often a reset is preempted, starting it again finishes it. */
    method ResetCompletely(preempt: nat -> seq<bool>)
      requires Valid() && objects == []
      modifies this`freeIndex, mem
      ensures Valid() && freeIndex == 0 && (!isDevice ==> forall x :: 0 <= x < mem.Length ==> mem[x] == 0)
    {
      var calls: nat := 0;
      var outcome := Reset(preempt(calls));
      while outcome != Done
        invariant Valid() && (outcome == Done ==> freeIndex == 0)
        decreases outcome != Done, freeIndex
      {
        calls := calls + 1;
        outcome := Reset(preempt(calls));
      }
    }

    /** `invoke_untyped_retype` for `n` objects of `size` bits, with the check that precedes it;
        `reset` tells that nothing made from the block is left. */
    method Retype(reset: bool, size: nat, n: nat, preempt: seq<bool>) returns (outcome: Outcome)
      requires Valid() && (reset ==> objects == []) && size >= Untyped.MIN_UNTYPED_BITS && n > 0
      modifies this, mem
      ensures Valid()
      ensures var from := if reset then 0 else old(Offset());
        && (outcome == NotEnoughMemory <==> size > bits || AlignUp(from, size) + n * Pow2(size) > Pow2(bits))
        && (outcome == NotEnoughMemory ==> freeIndex == old(freeIndex) && objects == old(objects) && mem[..] == old(mem[..]))
        && (outcome == Preempted ==> reset && objects == [] && freeIndex < old(freeIndex))
        && (outcome == Done ==> objects == old(objects) + AllPlaced(AlignUp(from, size), size, n))
        && (outcome == Done ==> forall i :: |old(objects)| <= i < |objects| ==> AlignedObject(objects[i], size))
        && (outcome == Done ==> Offset() == AlignUp(from, size) + n * Pow2(size))
        && (!reset || isDevice ==> mem[..] == old(mem[..]))
        && (outcome == Done && !isDevice ==> forall x :: from <= x < mem.Length ==> mem[x] == 0)
    {
      var from := if reset then 0 else Offset();
      RoomCheck(bits, from, size, n);
      hide Quot, AlignUp, Pow2, ObjectsOk, AllPlaced;
      if Quot(mem.Length - from, Pow2(size)) < n {
        return NotEnoughMemory;
      }
      var base := AlignUp(from, size);
      if reset {
        var status := Reset(preempt);
        if status != Done {
          return status;
        }
      }
      var end := base + n * Pow2(size);
      PlaceFits(from, size, n);
      MoreObjects(objects, from, base, size, n);
      freeIndex := Quot(end, FREE_UNIT);
      objects := objects + AllPlaced(base, size, n);
      NewAreAligned(old(objects), from, size, n);
      return Done;
    }

    /** Whoever holds an object can write its bytes. */
    method Write(i: nat, x: nat, v: Byte)
      requires Valid() && i < |objects| && Contains(objects[i], x)
      modifies mem
      ensures Valid() && mem[..] == old(mem[..])[x := v]
    {
      mem[x] := v;
    }

    /** Deleting everything made from the block leaves its bytes and its free index. */
    ghost method DeleteObjects()
      requires Valid()
      modifies this`objects
      ensures Valid() && objects == []
    {
      objects := [];
    }
  }

  lemma {:induction false} PlaceFits(from: nat, size: nat, n: nat)
    requires size >= Untyped.MIN_UNTYPED_BITS
    ensures from <= AlignUp(from, size)
    ensures var end := AlignUp(from, size) + n * Pow2(size); Quot(end, FREE_UNIT) * FREE_UNIT == end
  {
    AlignUpLeast(from, size);
    var c := Quot(from + Pow2(size) - 1, Pow2(size));
    Distrib(c, n, Pow2(size));
    WholeUnits(size, c + n);
  }
}
