/** What each operation on capability slots does to the capability and the marks of every slot,
    and which operations undo which. */
module DerivationEffects {
  import opened Capability
  import opened DerivationList
  import opened DerivationRuns
  import opened Sequences

  /** All slots except those in `named` hold the same capability with the same marks. */
  ghost predicate Elsewhere(slots: Slots, t: Slots, named: set<nat>) {
    && t.Keys == slots.Keys
    && (forall x :: x in slots && x !in named ==> SameContents(slots[x], t[x]))
  }

  predicate SameContents(c: Cte, d: Cte) {
    c.cap == d.cap && c.revocable == d.revocable && c.firstBadged == d.firstBadged
  }

  // ----- inserting -----

  /** A capability that may be revoked on its own: to memory, to an interrupt from the control
      capability, or with a badge its source does not have. */
  predicate NewParent(added: Cap, src: Cap) {
    || added.UntypedCap?
    || (added.IrqHandlerCap? && src.IrqControlCap?)
    || (added.EndpointCap? && src.EndpointCap? && added.badge != src.badge)
    || (added.NotificationCap? && src.NotificationCap? && added.badge != src.badge)
  }

  /** The destination holds the new capability, right behind the source in the list.  The source
      is left without room if both are to the same untyped block and is unchanged otherwise. */
  lemma InsertExactly(many: bool, slots: Slots, order: seq<nat>, k: nat, added: Cap, dst: nat)
    requires Ordered(many, slots, order) && k < |order| && Enabled(slots, Insert(added, order[k], dst))
    ensures var src, t := order[k], Inserted(slots, added, order[k], dst);
      && Elsewhere(slots, t, {src, dst}) && Ordered(many, t, InsertAt(order, k + 1, dst))
      && t[dst].cap == added && (t[dst].revocable <==> NewParent(added, slots[src].cap)) && t[dst].firstBadged == t[dst].revocable
      && t[src].revocable == slots[src].revocable && t[src].firstBadged == slots[src].firstBadged
      && SourceAfter(slots[src].cap, added, t[src].cap)
  {
    var src := order[k];
    var full := AsFull(slots[src].cap, added);
    AsFullLeavesNoRoom(slots[src].cap, added);
    InsertMarks(slots, added, src, dst);
    hide Object, Ordered, Splice, Fits, Insertable;
    InsertableFits(many, slots, src, added);
    SameObjectFull(slots[src].cap, added);
    FitsUpdated(many, slots, src, full, added);
    UpdateOrdered(many, slots, order, src, full);
    NotListed(many, slots, order, dst);
    SpliceOrdered(many, Updated(slots, src, full), order, k, dst, added, IsCapRevocable(added, slots[src].cap));
  }

  lemma SameObjectFull(src: Cap, added: Cap)
    ensures Object(AsFull(src, added)) == Object(src) && (AsFull(src, added) == NullCap <==> src == NullCap)
  {
  }

  lemma NotListed(many: bool, slots: Slots, order: seq<nat>, dst: nat)
    requires Ordered(many, slots, order) && Vacant(slots, dst)
    ensures dst !in order
  {
  }

  lemma InsertMarks(slots: Slots, added: Cap, src: nat, dst: nat)
    requires Enabled(slots, Insert(added, src, dst))
    ensures var t := Inserted(slots, added, src, dst);
      && Elsewhere(slots, t, {src, dst}) && t[dst].cap == added && t[src].cap == AsFull(slots[src].cap, added)
      && t[dst].revocable == NewParent(added, slots[src].cap) && t[dst].firstBadged == t[dst].revocable
      && t[src].revocable == slots[src].revocable && t[src].firstBadged == slots[src].firstBadged
  {
    hide SameObjectAs, Insertable, MaxFreeIndex;
    SpliceMarks(Updated(slots, src, AsFull(slots[src].cap, added)), src, dst, added, IsCapRevocable(added, slots[src].cap));
  }

  lemma SpliceMarks(slots: Slots, src: nat, dst: nat, added: Cap, flag: bool)
    requires src in slots && dst in slots && src != dst
    ensures var t := Splice(slots, src, dst, added, flag);
      && Elsewhere(slots, t, {dst}) && t[dst].cap == added && t[dst].revocable == flag && t[dst].firstBadged == flag
  {
  }

  /** A capability that was made new starts its own group of badged capabilities and can be
      revoked; its parent keeps what it has. */
  lemma InsertNewExactly(many: bool, slots: Slots, order: seq<nat>, k: nat, added: Cap, dst: nat)
    requires Ordered(many, slots, order) && k < |order| && Enabled(slots, InsertNew(added, order[k], dst))
    ensures var t := Next(slots, InsertNew(added, order[k], dst));
      && Elsewhere(slots, t, {dst}) && Ordered(many, t, InsertAt(order, k + 1, dst))
      && t[dst].cap == added && t[dst].revocable && t[dst].firstBadged
  {
    hide Object, SameObjectAs;
    SpliceMarks(slots, order[k], dst, added, true);
    InsertableFits(many, slots, order[k], added);
    NotListed(many, slots, order, dst);
    hide Ordered, Splice, Fits, Insertable;
    SpliceOrdered(many, slots, order, k, dst, added, true);
  }

  /** Emptying the slot of a plain copy takes everything back, links and marks included. */
  lemma EmptyUndoesInsert(many: bool, slots: Slots, added: Cap, src: nat, dst: nat)
    requires WellLinked(many, slots) && Enabled(slots, Insert(added, src, dst)) && !NewParent(added, slots[src].cap)
    ensures Emptied(Inserted(slots, added, src, dst), dst) == slots
  {
    hide SameObjectAs, Insertable, MaxFreeIndex;
    var order :| Ordered(many, slots, order);
    LinksAreMutual(many, slots, order, src);
    assert slots[dst] == EMPTY && 0 !in slots;
    assert Updated(slots, src, AsFull(slots[src].cap, added)) == slots;
    EmptyUndoesSplice(slots, src, dst, added);
  }

  lemma EmptyUndoesSplice(slots: Slots, src: nat, dst: nat, added: Cap)
    requires src in slots && dst in slots && src != dst && slots[dst] == EMPTY && 0 !in slots && added != NullCap && Mutual(slots, src)
    ensures dst in Splice(slots, src, dst, added, false) && Emptied(Splice(slots, src, dst, added, false), dst) == slots
  {
    var s := Splice(slots, src, dst, added, false);
    var t := Emptied(s, dst);
    assert s[dst] == Cte(added, src, slots[src].next, false, false);
    assert t.Keys == slots.Keys;
    forall x | x in slots ensures t[x] == slots[x] {
    }
  }

  // ----- moving and swapping -----

  /** The marks go with the capability. */
  lemma MoveExactly(slots: Slots, added: Cap, src: nat, dst: nat)
    requires Enabled(slots, Move(added, src, dst)) && 0 !in slots && Mutual(slots, src) && slots[dst] == EMPTY
    ensures var t := Moved(slots, added, src, dst);
      Elsewhere(slots, t, {src, dst}) && t[src] == EMPTY && t[dst] == slots[src].(cap := added)
  {
    hide Object;
  }

  /** Neither slot links to the other or to itself. */
  predicate Apart(slots: Slots, a: nat, b: nat)
    requires a in slots && b in slots
  {
    slots[a].prev !in {a, b} && slots[a].next !in {a, b} && slots[b].prev !in {a, b} && slots[b].next !in {a, b}
  }

  lemma SwapApart(slots: Slots, cap1: Cap, a: nat, cap2: Cap, b: nat)
    requires a in slots && b in slots && a != b && Apart(slots, a, b)
    ensures var t := Swapped(slots, cap1, a, cap2, b);
      a in t && b in t && t[a] == slots[b].(cap := cap2) && t[b] == slots[a].(cap := cap1)
  {
  }

  lemma SwapExactly(slots: Slots, cap1: Cap, a: nat, cap2: Cap, b: nat)
    requires Enabled(slots, Swap(cap1, a, cap2, b)) && 0 !in slots && Mutual(slots, a) && Mutual(slots, b)
    ensures var t := Swapped(slots, cap1, a, cap2, b);
      Elsewhere(slots, t, {a, b}) && t[a] == slots[b].(cap := cap2) && t[b] == slots[a].(cap := cap1)
  {
    hide Object, Swapped;
    assert Apart(slots, a, b);
    hide Mutual;
    var t := Swapped(slots, cap1, a, cap2, b);
    SwapApart(slots, cap1, a, cap2, b);
    SwapKeys(slots, cap1, a, cap2, b);
    forall x | x in slots && x !in {a, b} ensures SameContents(slots[x], t[x]) {
      SwapLinks(slots, cap1, a, cap2, b, x);
    }
  }

  lemma MoveLinks(slots: Slots, added: Cap, src: nat, dst: nat, x: nat)
    requires src in slots && dst in slots && x in slots && x != src && x != dst
    ensures var t := Moved(slots, added, src, dst);
      && x in t && SameContents(slots[x], t[x])
      && t[x].prev == (if x == slots[src].next then dst else slots[x].prev)
      && t[x].next == (if x == slots[src].prev then dst else slots[x].next)
  {
  }

  lemma MovedMutual(slots: Slots, added: Cap, src: nat, dst: nat)
    requires Enabled(slots, Move(added, src, dst)) && 0 !in slots && Mutual(slots, src) && slots[dst] == EMPTY
    ensures var t := Moved(slots, added, src, dst); dst in t && Mutual(t, dst)
  {
    hide Object;
    MoveExactly(slots, added, src, dst);
    var prev, next := slots[src].prev, slots[src].next;
    if prev != 0 { MoveLinks(slots, added, src, dst, prev); }
    if next != 0 { MoveLinks(slots, added, src, dst, next); }
  }

  /** Moving back undoes a move, and swapping again a swap: links, marks and all. */
  lemma MoveBack(many: bool, slots: Slots, added: Cap, src: nat, dst: nat)
    requires WellLinked(many, slots) && Enabled(slots, Move(added, src, dst))
    ensures Moved(Moved(slots, added, src, dst), slots[src].cap, dst, src) == slots
  {
    hide Object;
    var order :| Ordered(many, slots, order);
    LinksAreMutual(many, slots, order, src);
    assert slots[dst] == EMPTY && 0 !in slots;
    MoveExactly(slots, added, src, dst);
    MovedMutual(slots, added, src, dst);
    hide Ordered, Moved;
    var s := Moved(slots, added, src, dst);
    MoveExactly(s, slots[src].cap, dst, src);
    var t := Moved(s, slots[src].cap, dst, src);
    forall x | x in slots ensures t[x] == slots[x] {
      if x != src && x != dst {
        MoveLinks(slots, added, src, dst, x);
        MoveLinks(s, slots[src].cap, dst, src, x);
      }
    }
  }

  lemma SwapBack(many: bool, slots: Slots, cap1: Cap, a: nat, cap2: Cap, b: nat)
    requires WellLinked(many, slots) && Enabled(slots, Swap(cap1, a, cap2, b))
    ensures var t := Swapped(slots, cap1, a, cap2, b);
      Swappable(t, slots[b].cap, a, slots[a].cap, b) && !Neighbours(t, a, b) && Swapped(t, slots[b].cap, a, slots[a].cap, b) == slots
  {
    hide Object, Swapped;
    var order :| Ordered(many, slots, order);
    LinksAreMutual(many, slots, order, a);
    LinksAreMutual(many, slots, order, b);
    ZeroIsNoSlot(many, slots, order, a);
    hide Ordered, Mutual;
    SwapExactly(slots, cap1, a, cap2, b);
    var s := Swapped(slots, cap1, a, cap2, b);
    var t := Swapped(s, slots[b].cap, a, slots[a].cap, b);
    SwapTwiceEnds(slots, s, cap1, a, cap2, b);
    forall x | x in slots ensures t[x] == slots[x] {
      if x != a && x != b { SwapTwiceOther(slots, cap1, a, cap2, b, x); }
    }
  }

  lemma SwapTwiceOther(slots: Slots, cap1: Cap, a: nat, cap2: Cap, b: nat, x: nat)
    requires Enabled(slots, Swap(cap1, a, cap2, b)) && 0 !in slots && Mutual(slots, a) && Mutual(slots, b)
    requires x in slots && x != a && x != b
    ensures var t := Swapped(slots, cap1, a, cap2, b);
      a in t && b in t && x in Swapped(t, slots[b].cap, a, slots[a].cap, b) && Swapped(t, slots[b].cap, a, slots[a].cap, b)[x] == slots[x]
  {
    hide Object, Swapped;
    SwapExactly(slots, cap1, a, cap2, b);
    SwapLinks(slots, cap1, a, cap2, b, x);
    SwapLinks(Swapped(slots, cap1, a, cap2, b), slots[b].cap, a, slots[a].cap, b, x);
  }

  lemma SwapTwiceEnds(slots: Slots, s: Slots, cap1: Cap, a: nat, cap2: Cap, b: nat)
    requires Enabled(slots, Swap(cap1, a, cap2, b)) && 0 !in slots && Mutual(slots, a) && Mutual(slots, b)
    requires s.Keys == slots.Keys && s[a] == slots[b].(cap := cap2) && s[b] == slots[a].(cap := cap1)
    ensures Swappable(s, slots[b].cap, a, slots[a].cap, b) && !Neighbours(s, a, b)
    ensures var t := Swapped(s, slots[b].cap, a, slots[a].cap, b);
      t.Keys == slots.Keys && t[a] == slots[a] && t[b] == slots[b]
  {
    hide Object, Swapped;
    assert Apart(slots, a, b);
    hide Mutual;
    SwapKeys(s, slots[b].cap, a, slots[a].cap, b);
    SwapApart(s, slots[b].cap, a, slots[a].cap, b);
  }

  // ----- every step -----

  /** The slots whose capability a step may change. */
  function Named(step: Step): set<nat> {
    match step
    case Insert(_, src, dst) => {src, dst}
    case InsertNew(_, _, dst) => {dst}
    case Move(_, src, dst) => {src, dst}
    case Swap(_, a, _, b) => {a, b}
    case Empty(x) => {x}
    case Change(x, _) => {x}
  }

  /** The first-badged mark of a slot that is not named changes only when its predecessor is
      emptied, which passes its own mark on. */
  predicate LeftAlone(slots: Slots, t: Slots, step: Step, x: nat) {
    && x in slots && x in t && t[x].cap == slots[x].cap && t[x].revocable == slots[x].revocable
    && t[x].firstBadged ==
       (slots[x].firstBadged || (step.Empty? && step.x in slots && Joined(slots, step.x, x) && slots[step.x].firstBadged))
  }

  lemma OthersLeftAlone(many: bool, slots: Slots, step: Step, x: nat)
    requires WellLinked(many, slots) && Enabled(slots, step) && x in slots && x !in Named(step)
    ensures LeftAlone(slots, Next(slots, step), step, x)
  {
    hide Object, SameObjectAs;
    var order :| Ordered(many, slots, order);
    ZeroIsNoSlot(many, slots, order, x);
    match step {
      case Insert(added, src, dst) => InsertMarks(slots, added, src, dst);
      case InsertNew(added, parent, dst) => SpliceMarks(slots, parent, dst, added, true);
      case Move(added, src, dst) => MoveLinks(slots, added, src, dst, x);
      case Swap(cap1, a, cap2, b) => SwapLinks(slots, cap1, a, cap2, b, x);
      case Empty(y) =>
        LinksAreMutual(many, slots, order, y);
        EmptyMarks(slots, y, x);
      case Change(y, c) =>
    }
  }

  lemma EmptyMarks(slots: Slots, y: nat, x: nat)
    requires y in slots && x in slots && x != y && Mutual(slots, y) && 0 !in slots
    requires slots[y].cap == NullCap ==> slots[y] == EMPTY
    ensures LeftAlone(slots, Emptied(slots, y), Empty(y), x)
  {
  }

  /** In a run, a slot that no step names keeps its capability. */
  lemma {:induction false} RunLeavesAlone(many: bool, slots: Slots, steps: seq<Step>, x: nat)
    requires WellLinked(many, slots) && Legal(slots, steps) && x in slots
    requires forall i :: 0 <= i < |steps| ==> x !in Named(steps[i])
    ensures var t := Run(slots, steps);
      x in t && t[x].cap == slots[x].cap && t[x].revocable == slots[x].revocable && (slots[x].firstBadged ==> t[x].firstBadged)
    decreases |steps|
  {
    if steps != [] {
      hide Enabled, Next, WellLinked;
      OthersLeftAlone(many, slots, steps[0], x);
      StepKeeps(many, slots, steps[0]);
      RunLeavesAlone(many, Next(slots, steps[0]), steps[1..], x);
    }
  }
}
