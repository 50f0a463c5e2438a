/** The operations on capability slots, in place and as steps of a run: whatever the run, the
    neighbour check of the last capability to an object is a check of all slots. */
module DerivationRuns {
  import opened Capability
  import opened DerivationList
  import opened Powers
  import Untyped

  /** `max_free_index`; block sizes are at least the minimum. */
  function MaxFreeIndex(bits: nat): nat {
    Pow2(if bits < Untyped.MIN_UNTYPED_BITS then 0 else bits - Untyped.MIN_UNTYPED_BITS)
  }

  /** `set_untyped_cap_as_full`: an untyped capability that is copied whole has no room left. */
  function AsFull(src: Cap, added: Cap): Cap {
    if src.UntypedCap? && added.UntypedCap? && src.ptr == added.ptr && src.blockSize == added.blockSize
    then src.(freeIndex := MaxFreeIndex(src.blockSize))
    else src
  }

  /** Both capabilities are to the whole of one untyped block. */
  predicate WholeBlock(c: Cap, d: Cap) {
    c.UntypedCap? && d.UntypedCap? && c.ptr == d.ptr && c.blockSize == d.blockSize
  }

  /** The bytes of an untyped block that are not handed out yet. */
  function Room(c: Cap): int
    requires c.UntypedCap?
  {
    Pow2(c.blockSize) - c.freeIndex * 16
  }

  /** The source of a copy is left without room if both are to the same untyped block, and is
      unchanged in every other case. */
  predicate SourceAfter(was: Cap, added: Cap, now: Cap) {
    if WholeBlock(was, added) then
      && now.UntypedCap? && now == was.(freeIndex := now.freeIndex)
      && (was.blockSize >= Untyped.MIN_UNTYPED_BITS ==> Room(now) == 0)
    else now == was
  }

  lemma AsFullLeavesNoRoom(src: Cap, added: Cap)
    ensures SourceAfter(src, added, AsFull(src, added))
  {
    if src.UntypedCap? && src.blockSize >= Untyped.MIN_UNTYPED_BITS {
      PowAdd(src.blockSize - 4, 4);
      assert Pow2(4) == 16;
    }
  }

  /** `cte_insert`. */
  function Inserted(slots: Slots, added: Cap, src: nat, dst: nat): Slots
    requires src in slots && RevocableDefined(added, slots[src].cap)
  {
    Splice(Updated(slots, src, AsFull(slots[src].cap, added)), src, dst, added, IsCapRevocable(added, slots[src].cap))
  }

  predicate RevocableDefined(derived: Cap, src: Cap) {
    (derived.EndpointCap? ==> src.EndpointCap?) && (derived.NotificationCap? ==> src.NotificationCap?)
  }

  datatype Step =
    | Insert(added: Cap, src: nat, dst: nat)
    | InsertNew(added: Cap, parent: nat, dst: nat)
    | Move(added: Cap, src: nat, dst: nat)
    | Swap(cap1: Cap, a: nat, cap2: Cap, b: nat)
    | Empty(x: nat)
    | Change(x: nat, c: Cap)

  predicate Occupied(slots: Slots, x: nat) { x in slots && slots[x].cap != NullCap }

  predicate Vacant(slots: Slots, x: nat) { x in slots && slots[x].cap == NullCap }

  ghost predicate Enabled(slots: Slots, step: Step) {
    match step
    case Insert(added, src, dst) =>
      && Occupied(slots, src) && Vacant(slots, dst) && added != NullCap
      && RevocableDefined(added, slots[src].cap) && Insertable(slots, src, added)
    case InsertNew(added, parent, dst) =>
      Occupied(slots, parent) && Vacant(slots, dst) && added != NullCap && Insertable(slots, parent, added)
    case Move(added, src, dst) =>
      && Occupied(slots, src) && Vacant(slots, dst)
      && added != NullCap && Object(added) == Object(slots[src].cap)
    case Swap(cap1, a, cap2, b) => Swappable(slots, cap1, a, cap2, b) && !Neighbours(slots, a, b)
    case Empty(x) => x in slots
    case Change(x, c) => Updatable(slots, x, c)
  }

  ghost function Next(slots: Slots, step: Step): Slots
    requires Enabled(slots, step)
  {
    match step
    case Insert(added, src, dst) => Inserted(slots, added, src, dst)
    case InsertNew(added, parent, dst) => Splice(slots, parent, dst, added, true)
    case Move(added, src, dst) => Moved(slots, added, src, dst)
    case Swap(cap1, a, cap2, b) => Swapped(slots, cap1, a, cap2, b)
    case Empty(x) => Emptied(slots, x)
    case Change(x, c) => Updated(slots, x, c)
  }

  // ----- every step keeps the lists -----

  lemma SpliceKeeps(many: bool, slots: Slots, added: Cap, src: nat, dst: nat, flag: bool)
    requires WellLinked(many, slots) && Occupied(slots, src) && Vacant(slots, dst) && added != NullCap && Fits(many, slots, src, added)
    ensures WellLinked(many, Splice(slots, src, dst, added, flag))
  {
    hide Object, Splice;
    var order :| Ordered(many, slots, order);
    assert src in order && dst !in order;
    var k: nat :| k < |order| && order[k] == src;
    SpliceOrdered(many, slots, order, k, dst, added, flag);
  }

  lemma InsertKeeps(many: bool, slots: Slots, added: Cap, src: nat, dst: nat)
    requires WellLinked(many, slots) && Enabled(slots, Insert(added, src, dst))
    ensures WellLinked(many, Inserted(slots, added, src, dst))
  {
    var order :| Ordered(many, slots, order);
    var full := AsFull(slots[src].cap, added);
    var s := Updated(slots, src, full);
    InsertableFits(many, slots, src, added);
    assert Object(full) == Object(slots[src].cap);
    FitsUpdated(many, slots, src, full, added);
    UpdateOrdered(many, slots, order, src, full);
    SpliceKeeps(many, s, added, src, dst, IsCapRevocable(added, slots[src].cap));
  }

  lemma FitsUpdated(many: bool, slots: Slots, src: nat, full: Cap, added: Cap)
    requires src in slots && Fits(many, slots, src, added) && Object(full) == Object(slots[src].cap)
    ensures Fits(many, Updated(slots, src, full), src, added)
  {
    hide Object;
  }

  lemma EmptyKeeps(many: bool, slots: Slots, x: nat)
    requires WellLinked(many, slots) && x in slots
    ensures WellLinked(many, Emptied(slots, x))
  {
    var order :| Ordered(many, slots, order);
    if slots[x].cap != NullCap {
      LinksAreMutual(many, slots, order, x);
      assert x in order;
      var k: nat :| k < |order| && order[k] == x;
      EmptyUnlinks(slots, x);
      EmptyOrdered(many, slots, order, Emptied(slots, x), k);
    }
  }

  lemma StepKeeps(many: bool, slots: Slots, step: Step)
    requires WellLinked(many, slots) && Enabled(slots, step)
    ensures WellLinked(many, Next(slots, step))
  {
    hide Object, Ordered, Splice, Moved, Swapped, Emptied;
    var order :| Ordered(many, slots, order);
    match step {
      case Insert(added, src, dst) => InsertKeeps(many, slots, added, src, dst);
      case InsertNew(added, parent, dst) =>
        InsertableFits(many, slots, parent, added);
        SpliceKeeps(many, slots, added, parent, dst, true);
      case Move(added, src, dst) =>
        ZeroIsNoSlot(many, slots, order, dst);
        MoveExchanges(many, slots, order, added, src, dst);
        ExchangeOrdered(many, slots, order, Moved(slots, added, src, dst), src, dst);
      case Swap(cap1, a, cap2, b) => SwapIffApart(many, slots, cap1, a, cap2, b);
      case Empty(x) => EmptyKeeps(many, slots, x);
      case Change(x, c) => UpdateOrdered(many, slots, order, x, c);
    }
  }

  // ----- runs -----

  ghost predicate Legal(slots: Slots, steps: seq<Step>)
    decreases |steps|
  {
    steps == [] || (Enabled(slots, steps[0]) && Legal(Next(slots, steps[0]), steps[1..]))
  }

  ghost function Run(slots: Slots, steps: seq<Step>): Slots
    requires Legal(slots, steps)
    decreases |steps|
  {
    if steps == [] then slots else Run(Next(slots, steps[0]), steps[1..])
  }

  /** The slots at boot: unlinked, with capabilities to different objects, except that there may
      be `many` capabilities to scheduling control. */
  ghost predicate BootSlots(many: bool, slots: Slots) {
    && 0 !in slots
    && (forall x :: x in slots ==> slots[x].prev == 0 && slots[x].next == 0 && (slots[x].cap == NullCap ==> slots[x] == EMPTY))
    && (forall x, y :: x in slots && y in slots && x != y && SameObjectAs(slots[x].cap, slots[y].cap) ==>
          many && slots[x].cap.SchedControlCap?)
  }

  lemma {:induction false} SomeOrder(s: set<nat>) returns (order: seq<nat>)
    ensures forall i, j :: 0 <= i < j < |order| ==> order[i] != order[j]
    ensures forall x :: x in order <==> x in s
  {
    if s == {} {
      order := [];
    } else {
      var x :| x in s;
      var rest := SomeOrder(s - {x});
      order := [x] + rest;
    }
  }

  lemma BootIsWellLinked(many: bool, slots: Slots)
    requires BootSlots(many, slots)
    ensures WellLinked(many, slots)
  {
    hide SameObjectAs;
    var order := SomeOrder(set x | x in slots && slots[x].cap != NullCap);
    forall i | 0 <= i < |order| ensures order[i] in slots && slots[order[i]].cap != NullCap {
      assert order[i] in order;
    }
    forall i: nat | i < |order| ensures Link(slots, order, i) {
    }
    forall i: nat, j: nat | i < j < |order| ensures Together(many, slots, order, i, j) {
      SameObjectMeans(slots[order[i]].cap, slots[order[j]].cap);
    }
    assert Ordered(many, slots, order);
  }

  lemma {:induction false} RunKeeps(many: bool, slots: Slots, steps: seq<Step>)
    requires WellLinked(many, slots) && Legal(slots, steps)
    ensures WellLinked(many, Run(slots, steps))
    decreases |steps|
  {
    if steps != [] {
      StepKeeps(many, slots, steps[0]);
      RunKeeps(many, Next(slots, steps[0]), steps[1..]);
    }
  }

  /** Looking at the two neighbours tells whether any slot of the whole system holds another
      capability to the same object, in every state that any run from boot reaches; only where
      boot wrote several capabilities to scheduling control it does not tell for those. */
  lemma {:induction false} FinalIsGlobal(many: bool, slots: Slots, steps: seq<Step>, x: nat)
    requires BootSlots(many, slots) && Legal(slots, steps)
    ensures var t := Run(slots, steps); x in t ==>
      && Mutual(t, x) && (OnlyCap(t, x) ==> IsFinalCap(t, x))
      && (!(many && t[x].cap.SchedControlCap?) ==> (IsFinalCap(t, x) <==> OnlyCap(t, x)))
  {
    BootIsWellLinked(many, slots);
    RunKeeps(many, slots, steps);
    if x in Run(slots, steps) { FinalIffOnly(many, Run(slots, steps), x); }
  }

  // ----- several capabilities to scheduling control -----

  /** Boot on two cores: the check calls both capabilities to scheduling control the last one. */
  lemma TwoSchedControls()
    ensures var slots: Slots := map[1 := Cte(SchedControlCap(0), 0, 0, true, true), 2 := Cte(SchedControlCap(1), 0, 0, true, true)];
      BootSlots(true, slots) && IsFinalCap(slots, 1) && IsFinalCap(slots, 2) && !OnlyCap(slots, 1) && !OnlyCap(slots, 2)
  {
    var slots: Slots := map[1 := Cte(SchedControlCap(0), 0, 0, true, true), 2 := Cte(SchedControlCap(1), 0, 0, true, true)];
    assert SameObjectAs(slots[2].cap, slots[1].cap) && SameObjectAs(slots[1].cap, slots[2].cap);
  }

  ghost predicate AtMostOneSchedControl(slots: Slots) {
    forall x, y :: x in slots && y in slots && slots[x].cap.SchedControlCap? && slots[y].cap.SchedControlCap? ==> x == y
  }

  /** The neighbour check is right for every slot in every state that any run reaches. */
  ghost predicate FinalEverywhere(slots: Slots) {
    forall steps, x :: Legal(slots, steps) && x in Run(slots, steps) ==>
      Mutual(Run(slots, steps), x) && (IsFinalCap(Run(slots, steps), x) <==> OnlyCap(Run(slots, steps), x))
  }

  /** That is so exactly if boot wrote at most one capability to scheduling control. */
  lemma FinalEverywhereIff(slots: Slots)
    requires BootSlots(true, slots)
    ensures FinalEverywhere(slots) <==> AtMostOneSchedControl(slots)
  {
    if AtMostOneSchedControl(slots) {
      assert BootSlots(false, slots) by {
        forall x, y | x in slots && y in slots && x != y && slots[x].cap.SchedControlCap? ensures !SameObjectAs(slots[x].cap, slots[y].cap) {
        }
      }
      forall steps, x | Legal(slots, steps) && x in Run(slots, steps)
        ensures Mutual(Run(slots, steps), x) && (IsFinalCap(Run(slots, steps), x) <==> OnlyCap(Run(slots, steps), x))
      {
        FinalIsGlobal(false, slots, steps, x);
      }
    } else {
      var x, y :| x in slots && y in slots && slots[x].cap.SchedControlCap? && slots[y].cap.SchedControlCap? && x != y;
      assert SameObjectAs(slots[y].cap, slots[x].cap);
      assert Run(slots, []) == slots && Legal(slots, []);
      assert IsFinalCap(slots, x) && !OnlyCap(slots, x);
    }
  }

  // ----- in place -----

  lemma NoSlotZero(many: bool, slots: Slots)
    requires WellLinked(many, slots)
    ensures 0 !in slots
  {
  }

  class CSpace {
    var slots: Slots
    ghost const many: bool  // whether there are several capabilities to scheduling control

    constructor (slots: Slots, ghost many: bool)
      requires BootSlots(many, slots)
      ensures WellLinked(many, this.slots) && this.slots == slots && this.many == many
    {
      this.slots, this.many := slots, many;
      BootIsWellLinked(many, slots);
    }

    method CteInsert(added: Cap, src: nat, dst: nat)
      requires WellLinked(many, slots) && Enabled(slots, Insert(added, src, dst))
      modifies this
      ensures WellLinked(many, slots) && slots == Inserted(old(slots), added, src, dst)
      ensures slots[dst].cap == added && SourceAfter(old(slots)[src].cap, added, slots[src].cap)
    {
      hide WellLinked, Object, Insertable, SourceAfter;
      AsFullLeavesNoRoom(slots[src].cap, added);
      InsertKeeps(many, slots, added, src, dst);
      NoSlotZero(many, slots);
      var mdb := slots[src];
      var revocable := IsCapRevocable(added, mdb.cap);
      slots := slots[src := mdb.(cap := AsFull(mdb.cap, added))];
      slots := slots[dst := Cte(added, src, mdb.next, revocable, revocable)];
      slots := WithNext(slots, src, dst);
      if mdb.next != 0 {
        slots := WithPrev(slots, mdb.next, dst);
      }
    }

    method InsertNewCap(parent: nat, dst: nat, added: Cap)
      requires WellLinked(many, slots) && Enabled(slots, InsertNew(added, parent, dst))
      modifies this
      ensures WellLinked(many, slots) && slots == Splice(old(slots), parent, dst, added, true)
    {
      hide WellLinked, Object, SameObjectAs, Insertable, IsFinalCap, OnlyCap;
      StepKeeps(many, slots, InsertNew(added, parent, dst));
      NoSlotZero(many, slots);
      var next := slots[parent].next;
      slots := slots[dst := Cte(added, parent, next, true, true)];
      if next != 0 {
        slots := WithPrev(slots, next, dst);
      }
      slots := WithNext(slots, parent, dst);
      FinalIffOnly(many, old(slots), parent);
      assert slots == Splice(old(slots), parent, dst, added, true);
    }

    method CteMove(added: Cap, src: nat, dst: nat)
      requires WellLinked(many, slots) && Enabled(slots, Move(added, src, dst))
      modifies this
      ensures WellLinked(many, slots) && slots == Moved(old(slots), added, src, dst)
    {
      hide WellLinked, Object, Insertable;
      StepKeeps(many, slots, Move(added, src, dst));
      NoSlotZero(many, slots);
      var mdb := slots[src];
      slots := slots[dst := slots[dst].(cap := added)];
      slots := slots[src := slots[src].(cap := NullCap)];
      slots := slots[dst := mdb.(cap := added)];
      slots := slots[src := EMPTY];
      assert slots == old(slots)[dst := mdb.(cap := added)][src := EMPTY];
      if mdb.prev != 0 {
        slots := WithNext(slots, mdb.prev, dst);
      }
      if mdb.next != 0 {
        slots := WithPrev(slots, mdb.next, dst);
      }
    }

    method CteSwap(cap1: Cap, a: nat, cap2: Cap, b: nat)
      requires WellLinked(many, slots) && Swappable(slots, cap1, a, cap2, b)
      modifies this
      ensures WellLinked(many, slots) <==> !Neighbours(old(slots), a, b)
      ensures slots == Swapped(old(slots), cap1, a, cap2, b)
    {
      hide WellLinked, Object, Insertable;
      SwapIffApart(many, slots, cap1, a, cap2, b);
      NoSlotZero(many, slots);
      var mdb1, mdb2 := slots[a], slots[b];
      if mdb1.prev != 0 {
        slots := WithNext(slots, mdb1.prev, b);
      }
      if mdb1.next != 0 {
        slots := WithPrev(slots, mdb1.next, b);
      }
      slots := slots[a := mdb2.(cap := cap2)];
      slots := slots[b := mdb1.(cap := cap1)];
      if mdb2.prev != 0 {
        slots := WithNext(slots, mdb2.prev, a);
      }
      if mdb2.next != 0 {
        slots := WithPrev(slots, mdb2.next, a);
      }
    }

    method SetEmpty(x: nat)
      requires WellLinked(many, slots) && x in slots
      modifies this
      ensures WellLinked(many, slots) && slots == Emptied(old(slots), x)
    {
      hide WellLinked, Object, Insertable;
      EmptyKeeps(many, slots, x);
      NoSlotZero(many, slots);
      var mdb := slots[x];
      if mdb.cap != NullCap {
        if mdb.prev != 0 {
          slots := WithNext(slots, mdb.prev, mdb.next);
        }
        if mdb.next != 0 {
          FinalIffOnly(many, old(slots), x);
          slots := WithPrev(slots, mdb.next, mdb.prev);
          var firstBadged := slots[mdb.next].firstBadged || mdb.firstBadged;
          slots := slots[mdb.next := slots[mdb.next].(firstBadged := firstBadged)];
        }
        slots := slots[x := EMPTY];
      }
      assert slots == Emptied(old(slots), x);
    }

    /** `is_final_cap`. */
    method IsFinal(x: nat) returns (final: bool)
      requires WellLinked(many, slots) && x in slots
      ensures !(many && slots[x].cap.SchedControlCap?) ==>
        (final <==> forall y :: y in slots && y != x ==> !SameObjectAs(slots[y].cap, slots[x].cap))
      ensures !final ==> exists y :: y in slots && y != x && SameObjectAs(slots[y].cap, slots[x].cap)
    {
      FinalIffOnly(many, slots, x);
      var mdb := slots[x];
      if mdb.prev != 0 && SameObjectAs(slots[mdb.prev].cap, mdb.cap) {
        return false;
      }
      if mdb.next == 0 {
        return true;
      }
      return !SameObjectAs(mdb.cap, slots[mdb.next].cap);
    }
  }
}
