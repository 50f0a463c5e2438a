/** CSpace addressing: the slow walker `resolve_address_bits`, which takes address bits off
    the bottom of a shrinking field, and the fast-path walker `lookup_fp`, which shifts the
    address out at the top, find the same capability. */
module CSpaceLookup {
  import opened Capability
  import opened Powers

  const WORD_BITS: nat := 64

  function Amount(k: nat): (a: nat)
    ensures k < WORD_BITS ==> a == k
  {
    k % WORD_BITS
  }

  /** `x << k` and `x >> k` on 64-bit words: overflowing bits are lost and only the low
      six bits of the shift amount count. */
  function Shl(x: nat, k: nat): nat { Rem(x * Pow2(Amount(k)), Pow2(WORD_BITS)) }

  function Shr(x: nat, k: nat): nat { Quot(x, Pow2(Amount(k))) }

  /** `x & mask_bits!(n)`. */
  function Mask(x: nat, n: nat): nat { Rem(x, Pow2(n)) }

  /** The capability in the slot at an address; CNodes may point anywhere, also in circles. */
  type Memory = nat -> Cap

  const SLOT_SIZE: nat := 32

  /** The address of a slot of a CNode. */
  function SlotAddr(ptr: nat, offset: nat): nat { ptr + offset * SLOT_SIZE }

  /** What both walkers rely on: the six-bit fields of a CNode capability, and at least one
      address bit per level. */
  predicate HasLevel(c: Cap) {
    c.CNodeCap? ==> c.radix < 64 && c.guardSize < 64 && 0 < c.radix + c.guardSize
  }

  ghost predicate AllHaveLevels(mem: Memory) { forall a :: HasLevel(mem(a)) }

  /** No guard value without guard bits, and a CNode of a single slot only behind a guard
      that no address has. */
  predicate Fits(c: Cap) {
    c.CNodeCap? ==>
      && (c.guardSize == 0 ==> c.guard == 0)
      && (c.radix == 0 ==> c.guard >= Pow2(c.guardSize))
  }

  ghost predicate AllFit(mem: Memory) { forall a :: Fits(mem(a)) }

  // ----- the meaning of an address -----

  /** Bits `lo` to `hi - 1` of `x`. */
  function Field(x: nat, lo: nat, hi: nat): nat
    requires lo <= hi
  {
    Rem(Quot(x, Pow2(lo)), Pow2(hi - lo))
  }

  datatype Resolved = Fault | Found(slot: nat, bitsRemaining: nat)

  /** The lowest `bits` bits of an address, from the top: the guard of the CNode, then a
      slot index, then the address within the CNode found there. */
  ghost function Resolve(mem: Memory, node: Cap, addr: nat, bits: nat): Resolved
    requires AllHaveLevels(mem) && HasLevel(node)
    decreases bits
  {
    if !node.CNodeCap? || node.guardSize > bits || Field(addr, bits - node.guardSize, bits) != node.guard then Fault
    else
      var rest := bits - node.guardSize;
      if node.radix > rest then Fault
      else
        var left := rest - node.radix;
        var slot := SlotAddr(node.ptr, Field(addr, left, rest));
        if left == 0 || !mem(slot).CNodeCap? then Found(slot, left)
        else Resolve(mem, mem(slot), addr, left)
  }

  function CapAt(mem: Memory, r: Resolved): Cap { if r.Found? then mem(r.slot) else NullCap }

  // ----- shifts read fields -----

  /** Shifting `b` bits out at the top and keeping the top `g` bits of what is left
      reads bits `64-b-g` to `63-b`. */
  lemma TopBits(x: nat, b: nat, g: nat)
    requires b < WORD_BITS && 0 < g && b + g <= WORD_BITS
    ensures Shr(Shl(x, b), WORD_BITS - g) == Field(x, WORD_BITS - b - g, WORD_BITS - b)
  {
    TopField(x, b, g, WORD_BITS - b - g);
  }

  lemma TopField(x: nat, b: nat, g: nat, m: nat)
    requires b < WORD_BITS && 0 < g && b + g + m == WORD_BITS
    ensures Quot(Rem(x * Pow2(b), Pow2(WORD_BITS)), Pow2(m + b)) == Rem(Quot(x, Pow2(m)), Pow2(g))
  {
    PowAdd(m + g, b);
    PowAdd(m, b);
    PowAdd(m, g);
    ScaleDivMod(x, Pow2(m + g), Pow2(b));
    ScaleDivMod(Rem(x, Pow2(m + g)), Pow2(m), Pow2(b));
    DivModSwap(x, Pow2(m), Pow2(g));
  }

  lemma ShlShl(x: nat, a: nat, b: nat)
    requires a + b < WORD_BITS
    ensures Shl(Shl(x, a), b) == Shl(x, a + b)
  {
    PowAdd(a, b);
    RemRem(x, Pow2(a), Pow2(b), Pow2(WORD_BITS));
  }

  lemma RemRem(x: nat, p: nat, q: nat, w: nat)
    requires w > 0
    ensures Rem(Rem(x * p, w) * q, w) == Rem(x * (p * q), w)
  {
    var c, d := Quot(x * p, w), Rem(x * p, w);
    var e, f := Quot(d * q, w), Rem(d * q, w);
    DivMod(x * p, w);
    DivMod(d * q, w);
    Assoc(x, p, q);
    Distrib(c * w, d, q);
    Assoc(c, w, q);
    Assoc(c, q, w);
    Distrib(c * q, e, w);
    DivUnique(x * (p * q), w, c * q + e, f);
  }

  // ----- the slow walker -----

  method ResolveAddressBits(mem: Memory, nodeCap: Cap, capPtr: nat, nBits: nat) returns (r: Resolved)
    requires AllHaveLevels(mem) && HasLevel(nodeCap) && nBits <= WORD_BITS
    ensures r == Resolve(mem, nodeCap, capPtr, nBits)
  {
    if !nodeCap.CNodeCap? { return Fault; }
    var node, n := nodeCap, nBits;
    while true
      invariant node.CNodeCap? && HasLevel(node) && 0 <= n <= WORD_BITS
      invariant Resolve(mem, node, capPtr, n) == Resolve(mem, nodeCap, capPtr, nBits)
      decreases n
    {
      var levelBits := node.radix + node.guardSize;
      var guard := Mask(Shr(capPtr, (n - node.guardSize) % 64), node.guardSize);
      GuardField(capPtr, n, node.guardSize);
      if node.guardSize > n || guard != node.guard { return Fault; }
      if levelBits > n { return Fault; }
      var offset := Mask(Shr(capPtr, n - levelBits), node.radix);
      var slot := SlotAddr(node.ptr, offset);
      if n == levelBits { return Found(slot, 0); }
      n := n - levelBits;
      node := mem(slot);
      if !node.CNodeCap? { return Found(slot, n); }
    }
  }

  /** The subtraction is taken modulo 64 before it is known not to underflow. */
  lemma GuardField(x: nat, n: nat, g: nat)
    requires n <= WORD_BITS
    ensures g <= n ==> Mask(Shr(x, (n - g) % 64), g) == Field(x, n - g, n)
  {
    if n - g == 64 {
      DivMod(Shr(x, 0), 1);
      DivMod(Quot(x, Pow2(64)), 1);
    }
  }

  // ----- the fast walker -----

  /** One lap of the fast walker per CNode, `bits` address bits having been used up. */
  ghost function Fast(mem: Memory, node: Cap, cptr: nat, bits: nat): Cap
    requires AllHaveLevels(mem) && HasLevel(node) && node.CNodeCap?
    decreases if bits < WORD_BITS then WORD_BITS - bits else 0
  {
    var cptr2 := Shl(cptr, bits);
    if node.guardSize != 0 && Shr(cptr2, WORD_BITS - node.guardSize) != node.guard then NullCap
    else
      var radix := Shr(Shl(cptr2, node.guardSize), WORD_BITS - node.radix);
      var next := mem(SlotAddr(node.ptr, radix));
      var used := bits + node.guardSize + node.radix;
      if used < WORD_BITS && next.CNodeCap? then Fast(mem, next, cptr, used)
      else if used > WORD_BITS then NullCap
      else next
  }

  ghost function LookedUp(mem: Memory, root: Cap, cptr: nat): Cap
    requires AllHaveLevels(mem) && HasLevel(root)
  {
    if root.CNodeCap? then Fast(mem, root, cptr, 0) else NullCap
  }

  method LookupFp(mem: Memory, root: Cap, cptr: nat) returns (c: Cap)
    requires AllHaveLevels(mem) && HasLevel(root)
    ensures c == LookedUp(mem, root, cptr)
    ensures AllFit(mem) && Fits(root) ==> c == CapAt(mem, Resolve(mem, root, cptr, WORD_BITS))
  {
    if AllFit(mem) && Fits(root) { LookupAgrees(mem, root, cptr); }
    hide Shl, Shr, Pow2, Resolve, AllFit;
    c := root;
    if !c.CNodeCap? { return NullCap; }
    var bits := 0;
    while true
      invariant c.CNodeCap? && HasLevel(c) && bits < WORD_BITS
      invariant Fast(mem, c, cptr, bits) == LookedUp(mem, root, cptr)
      decreases WORD_BITS - bits
    {
      var cptr2 := Shl(cptr, bits);
      if c.guardSize != 0 && Shr(cptr2, WORD_BITS - c.guardSize) != c.guard { return NullCap; }
      var radix := Shr(Shl(cptr2, c.guardSize), WORD_BITS - c.radix);
      bits := bits + c.guardSize + c.radix;
      c := mem(SlotAddr(c.ptr, radix));
      if !(bits < WORD_BITS && c.CNodeCap?) { break; }
    }
    if bits > WORD_BITS { return NullCap; }
  }

  /** At every level the two walkers read the same guard and the same slot. */
  lemma {:induction false} FastAgrees(mem: Memory, node: Cap, cptr: nat, bits: nat)
    requires AllHaveLevels(mem) && AllFit(mem) && node.CNodeCap? && HasLevel(node) && Fits(node)
    requires bits < WORD_BITS
    ensures Fast(mem, node, cptr, bits) == CapAt(mem, Resolve(mem, node, cptr, WORD_BITS - bits))
    decreases WORD_BITS - bits
  {
    hide Shl, Shr, Field, Pow2;
    var n, g, r := WORD_BITS - bits, node.guardSize, node.radix;
    if g + r <= n && Field(cptr, n - g, n) == node.guard {
      SameGuard(node, cptr, bits);
      SameIndex(cptr, bits, g, r);
      var slot := SlotAddr(node.ptr, Field(cptr, n - g - r, n - g));
      if g + r < n && mem(slot).CNodeCap? {
        FastAgrees(mem, mem(slot), cptr, bits + g + r);
      }
    } else {
      FastStops(mem, node, cptr, bits);
    }
  }

  lemma {:induction false} FastStops(mem: Memory, node: Cap, cptr: nat, bits: nat)
    requires AllHaveLevels(mem) && node.CNodeCap? && HasLevel(node) && Fits(node) && bits < WORD_BITS
    requires var n := WORD_BITS - bits;
      n < node.guardSize + node.radix || Field(cptr, n - node.guardSize, n) != node.guard
    ensures Fast(mem, node, cptr, bits) == NullCap
  {
    if node.guardSize + bits <= WORD_BITS { SameGuard(node, cptr, bits); }
  }

  lemma SameIndex(cptr: nat, bits: nat, g: nat, r: nat)
    requires r > 0 && bits + g + r <= WORD_BITS
    ensures Shr(Shl(Shl(cptr, bits), g), WORD_BITS - r) == Field(cptr, WORD_BITS - bits - g - r, WORD_BITS - bits - g)
  {
    ShlShl(cptr, bits, g);
    TopBits(cptr, bits + g, r);
  }

  lemma SameGuard(node: Cap, cptr: nat, bits: nat)
    requires node.CNodeCap? && HasLevel(node) && Fits(node) && bits + node.guardSize <= WORD_BITS && bits < WORD_BITS
    ensures (node.guardSize != 0 && Shr(Shl(cptr, bits), WORD_BITS - node.guardSize) != node.guard)
        <==> Field(cptr, WORD_BITS - bits - node.guardSize, WORD_BITS - bits) != node.guard
    ensures node.radix == 0 ==> Field(cptr, WORD_BITS - bits - node.guardSize, WORD_BITS - bits) != node.guard
  {
    var g := node.guardSize;
    DivMod(Quot(cptr, Pow2(WORD_BITS - bits - g)), Pow2(g));
    if g > 0 { TopBits(cptr, bits, g); }
  }

  lemma {:induction false} LookupAgrees(mem: Memory, root: Cap, cptr: nat)
    requires AllHaveLevels(mem) && AllFit(mem) && HasLevel(root) && Fits(root)
    ensures LookedUp(mem, root, cptr) == CapAt(mem, Resolve(mem, root, cptr, WORD_BITS))
  {
    if root.CNodeCap? { FastAgrees(mem, root, cptr, 0); }
  }

  // ----- the condition is exact -----

  ghost predicate AgreeEverywhere(root: Cap)
    requires HasLevel(root)
  {
    forall mem: Memory, cptr: nat | AllHaveLevels(mem) && AllFit(mem) && cptr < Pow2(WORD_BITS) ::
      LookedUp(mem, root, cptr) == CapAt(mem, Resolve(mem, root, cptr, WORD_BITS))
  }

  /** A guard value without guard bits stops the slow walker at every address; the fast one
      does not look at it. */
  lemma StrayGuard(root: Cap)
    requires root.CNodeCap? && HasLevel(root) && root.guardSize == 0 && root.guard != 0
    ensures !AgreeEverywhere(root)
  {
    var mem: Memory := a => ThreadCap(7);
    assert LookedUp(mem, root, 0) == ThreadCap(7);
    DivMod(Quot(0, Pow2(WORD_BITS)), 1);
    assert Pow2(0) == 1;
    assert Field(0, WORD_BITS, WORD_BITS) == 0;
    assert Resolve(mem, root, 0, WORD_BITS) == Fault;
  }

  /** With no radix bits the fast walker shifts by 64, which is a shift by 0, and takes the
      rest of the address as the slot index. */
  lemma NoRadix(root: Cap)
    requires root.CNodeCap? && HasLevel(root) && root.radix == 0 && root.guard < Pow2(root.guardSize)
    ensures !AgreeEverywhere(root)
  {
    hide Shl, Shr, Field, Pow2;
    var g := root.guardSize;
    var cptr := root.guard * Pow2(WORD_BITS - g) + 1;
    PastTheGuard(root.guard, g, WORD_BITS - g);
    var mem: Memory := (a: nat) => ThreadCap(a);
    NoRadixSlow(mem, root, cptr);
    NoRadixFast(mem, root, cptr);
    assert SlotAddr(root.ptr, Pow2(g)) != root.ptr;
    assert LookedUp(mem, root, cptr) != CapAt(mem, Resolve(mem, root, cptr, WORD_BITS));
  }

  lemma {:induction false} NoRadixSlow(mem: Memory, root: Cap, cptr: nat)
    requires root.CNodeCap? && HasLevel(root) && root.radix == 0 && AllHaveLevels(mem)
    requires !mem(root.ptr).CNodeCap?
    requires Field(cptr, WORD_BITS - root.guardSize, WORD_BITS) == root.guard
    requires Field(cptr, WORD_BITS - root.guardSize, WORD_BITS - root.guardSize) == 0
    ensures CapAt(mem, Resolve(mem, root, cptr, WORD_BITS)) == mem(root.ptr)
  {
    assert SlotAddr(root.ptr, 0) == root.ptr;
  }

  lemma NoRadixFast(mem: Memory, root: Cap, cptr: nat)
    requires root.CNodeCap? && HasLevel(root) && root.radix == 0 && AllHaveLevels(mem)
    requires Shl(cptr, 0) == cptr && Shr(cptr, WORD_BITS - root.guardSize) == root.guard
    requires !mem(SlotAddr(root.ptr, Shr(Shl(cptr, root.guardSize), WORD_BITS))).CNodeCap?
    ensures LookedUp(mem, root, cptr) == mem(SlotAddr(root.ptr, Shr(Shl(cptr, root.guardSize), WORD_BITS)))
  {
    assert Shl(Shl(cptr, 0), root.guardSize) == Shl(cptr, root.guardSize);
  }

  lemma {:induction false} PastTheGuard(guard: nat, g: nat, m: nat)
    requires 0 < g < WORD_BITS && m == WORD_BITS - g && guard < Pow2(g)
    ensures var cptr := guard * Pow2(m) + 1;
      && cptr < Pow2(WORD_BITS)
      && Shl(cptr, 0) == cptr
      && Shr(cptr, m) == guard == Field(cptr, m, WORD_BITS)
      && Field(cptr, m, m) == 0
      && Shr(Shl(cptr, g), WORD_BITS) == Pow2(g)
  {
    hide Pow2, Quot, Rem;
    PowParts(m);
    PowAdd(m, g);
    GuardAndOne(guard, Pow2(m), Pow2(g));
    assert Amount(m) == m && Amount(g) == g && Amount(0) == Amount(WORD_BITS) == 0;
  }

  lemma {:induction false} PowParts(m: nat)
    requires m > 0
    ensures Pow2(0) == 1 && Pow2(m) >= 2
  {
    assert Pow2(m) == 2 * Pow2(m - 1);
  }

  /** The address `guard * p + 1` of guard field `q` above `p`: it is a word, its guard is
      `guard`, and shifting the guard out leaves `q`. */
  lemma GuardAndOne(guard: nat, p: nat, q: nat)
    requires p >= 2 && guard < q && p * q > 0
    ensures var x := guard * p + 1;
      && x < p * q
      && Rem(x * 1, p * q) == x
      && Quot(x, p) == guard == Rem(Quot(x, p), q)
      && Rem(guard, 1) == 0
      && Quot(Rem(x * q, p * q), 1) == q
  {
    var x := guard * p + 1;
    MulMono(guard + 1, q, p);
    Distrib(guard, 1, p);
    DivUnique(x, p, guard, 1);
    DivUnique(guard, q, 0, guard);
    DivUnique(guard, 1, guard, 0);
    DivUnique(x, p * q, 0, x);
    Distrib(guard * p, 1, q);
    Assoc(guard, p, q);
    MulMono(2, p, q);
    DivUnique(x * q, p * q, guard, q);
    DivUnique(q, 1, q, 0);
  }

  /** The two walkers agree on every address in every memory exactly for the CNodes that fit. */
  lemma AgreeIffFits(root: Cap)
    requires HasLevel(root)
    ensures AgreeEverywhere(root) <==> Fits(root)
  {
    if Fits(root) {
      forall mem: Memory, cptr: nat | AllHaveLevels(mem) && AllFit(mem) && cptr < Pow2(WORD_BITS)
        ensures LookedUp(mem, root, cptr) == CapAt(mem, Resolve(mem, root, cptr, WORD_BITS))
      {
        LookupAgrees(mem, root, cptr);
      }
    } else if root.guardSize == 0 && root.guard != 0 {
      StrayGuard(root);
    } else {
      NoRadix(root);
    }
  }

  // ----- where guards come from -----

  /** The guard size is in the low six bits of the data word, the guard above it. */
  function UpdateData(c: Cap, data: nat): Cap
    requires c.CNodeCap?
  {
    var guardSize := Rem(data, 64);
    if guardSize + c.radix > WORD_BITS then NullCap
    else c.(guard := Mask(Quot(data, 64), guardSize), guardSize := guardSize)
  }

  /** Every guard a user can set fits, and the CNode can be looked up with a full word. */
  lemma UpdateDataFits(c: Cap, data: nat)
    requires c.CNodeCap? && 0 < c.radix < 64
    ensures var d := UpdateData(c, data);
      && (d == NullCap <==> Rem(data, 64) + c.radix > WORD_BITS)
      && HasLevel(d) && Fits(d)
      && (d.CNodeCap? ==>
            && d.guardSize + d.radix <= WORD_BITS && d.guard < Pow2(d.guardSize)
            && d.(guard := c.guard, guardSize := c.guardSize) == c)
  {
    var guardSize := Rem(data, 64);
    DivMod(data, 64);
    DivMod(Quot(data, 64), Pow2(guardSize));
  }

  /** The data word is the guard above six bits of its size: any guard that fits beside the radix
      can be set, and nothing else changes; bits of the word above the guard do not matter. */
  lemma {:induction false} UpdateDataSets(c: Cap, guard: nat, size: nat, above: nat)
    requires c.CNodeCap? && size < 64 && guard < Pow2(size) && size + c.radix <= WORD_BITS
    ensures UpdateData(c, (above * Pow2(size) + guard) * 64 + size) == c.(guard := guard, guardSize := size)
  {
    DivUnique((above * Pow2(size) + guard) * 64 + size, 64, above * Pow2(size) + guard, size);
    DivUnique(above * Pow2(size) + guard, Pow2(size), above, guard);
  }
}
