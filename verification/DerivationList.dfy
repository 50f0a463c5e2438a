/** The mapping database (MDB): doubly linked lists through the capability slots.  A slot
    learns whether it holds the last capability to its object from its two neighbours alone. */
module DerivationList {
  import opened Capability
  import opened Sequences

  /** A capability slot: the capability and its MDB node; 0 is the null link. */
  datatype Cte = Cte(cap: Cap, prev: nat, next: nat, revocable: bool, firstBadged: bool)

  const EMPTY := Cte(NullCap, 0, 0, false, false)

  type Slots = map<nat, Cte>

  // ----- the lists, laid end to end -----

  predicate Joined(slots: Slots, x: nat, y: nat) {
    x in slots && y in slots && slots[x].next == y && slots[y].prev == x
  }

  /** The slot at `i` is linked to the next one, or one list ends there and another begins. */
  predicate Link(slots: Slots, order: seq<nat>, i: nat)
    requires i < |order| && order[i] in slots
  {
    && (i == 0 ==> slots[order[i]].prev == 0)
    && (i + 1 == |order| ==> slots[order[i]].next == 0)
    && (i + 1 < |order| ==>
          || Joined(slots, order[i], order[i + 1])
          || (order[i + 1] in slots && slots[order[i]].next == 0 && slots[order[i + 1]].prev == 0))
  }

  /** Whether capabilities to the object are kept together.  Boot writes one capability to
      scheduling control per core, all to the same object, into unrelated slots; where there
      are `many` of them, they are not. */
  predicate Grouped(many: bool, obj: Cap) { obj != NullCap && !(many && obj.SchedControlCap?) }

  predicate Same(many: bool, slots: Slots, x: nat, y: nat) {
    && x in slots && y in slots
    && Grouped(many, Object(slots[x].cap)) && Object(slots[x].cap) == Object(slots[y].cap)
  }

  /** Between two slots with the same object there are only linked slots with that object. */
  predicate Together(many: bool, slots: Slots, order: seq<nat>, i: nat, j: nat)
    requires i < j < |order|
  {
    Same(many, slots, order[i], order[j]) ==>
      && Joined(slots, order[i], order[i + 1]) && Same(many, slots, order[i], order[i + 1])
      && Joined(slots, order[j - 1], order[j]) && Same(many, slots, order[j - 1], order[j])
  }

  ghost predicate Listed(slots: Slots, order: seq<nat>) {
    && 0 !in slots
    && (forall i, j :: 0 <= i < j < |order| ==> order[i] != order[j])
    && (forall i :: 0 <= i < |order| ==> order[i] in slots && slots[order[i]].cap != NullCap)
    && (forall x :: x in slots && x !in order ==> slots[x] == EMPTY)
  }

  ghost predicate Ordered(many: bool, slots: Slots, order: seq<nat>) {
    && Listed(slots, order)
    && (forall i: nat {:trigger Link(slots, order, i)} :: i < |order| ==> Link(slots, order, i))
    && (forall i: nat, j: nat {:trigger Together(many, slots, order, i, j)} :: i < j < |order| ==> Together(many, slots, order, i, j))
  }

  /** Every occupied slot is in exactly one list, links are mutual, and the capabilities to
      one grouped object are neighbours. */
  ghost predicate WellLinked(many: bool, slots: Slots) { exists order :: Ordered(many, slots, order) }

  // ----- the neighbour check -----

  predicate IsFinalCap(slots: Slots, x: nat)
    requires x in slots && (slots[x].prev == 0 || slots[x].prev in slots) && (slots[x].next == 0 || slots[x].next in slots)
  {
    var prevIsSame := slots[x].prev != 0 && SameObjectAs(slots[slots[x].prev].cap, slots[x].cap);
    !prevIsSame && (slots[x].next == 0 || !SameObjectAs(slots[x].cap, slots[slots[x].next].cap))
  }

  /** Links lead to occupied slots and back. */
  predicate Mutual(slots: Slots, x: nat)
    requires x in slots
  {
    && (slots[x].next != 0 ==> slots[x].next != x && Joined(slots, x, slots[x].next))
    && (slots[x].prev != 0 ==> slots[x].prev != x && Joined(slots, slots[x].prev, x))
  }

  lemma LinksAreMutual(many: bool, slots: Slots, order: seq<nat>, x: nat)
    requires Ordered(many, slots, order) && x in slots
    ensures Mutual(slots, x)
  {
    if x in order {
      var i: nat :| i < |order| && order[i] == x;
      assert Link(slots, order, i);
      if i > 0 { assert Link(slots, order, i - 1); }
    }
  }

  /** Nobody else has a capability to the object in `x`. */
  ghost predicate OnlyCap(slots: Slots, x: nat)
    requires x in slots
  {
    forall y :: y in slots && y != x ==> !SameObjectAs(slots[y].cap, slots[x].cap)
  }

  lemma FinalIffOnly(many: bool, slots: Slots, x: nat)
    requires WellLinked(many, slots) && x in slots
    ensures Mutual(slots, x)
    ensures !(many && slots[x].cap.SchedControlCap?) ==> (IsFinalCap(slots, x) <==> OnlyCap(slots, x))
    ensures OnlyCap(slots, x) ==> IsFinalCap(slots, x)
  {
    var order :| Ordered(many, slots, order);
    LinksAreMutual(many, slots, order, x);
    if IsFinalCap(slots, x) && !(many && slots[x].cap.SchedControlCap?) {
      forall y | y in slots && y != x ensures !SameObjectAs(slots[y].cap, slots[x].cap) {
        SameObjectMeans(slots[y].cap, slots[x].cap);
        if Same(many, slots, y, x) { SameIsNeighbour(many, slots, order, x, y); }
      }
    } else if !IsFinalCap(slots, x) {
      var y := if slots[x].prev != 0 && SameObjectAs(slots[slots[x].prev].cap, slots[x].cap) then slots[x].prev else slots[x].next;
      SameObjectEquivalence(slots[x].cap, slots[y].cap, slots[x].cap);
    }
  }

  lemma SameIsNeighbour(many: bool, slots: Slots, order: seq<nat>, x: nat, y: nat)
    requires Ordered(many, slots, order) && x != y && Same(many, slots, y, x) && Mutual(slots, x)
    ensures !IsFinalCap(slots, x)
  {
    assert x in order && y in order;
    var i: nat :| i < |order| && order[i] == x;
    var j: nat :| j < |order| && order[j] == y;
    if i < j {
      assert Together(many, slots, order, i, j);
      SameObjectMeans(slots[x].cap, slots[order[i + 1]].cap);
    } else {
      assert Together(many, slots, order, j, i);
      SameObjectMeans(slots[order[i - 1]].cap, slots[x].cap);
    }
  }

  // ----- inserting after a slot -----

  function WithPrev(slots: Slots, x: nat, prev: nat): Slots {
    if x in slots then slots[x := slots[x].(prev := prev)] else slots
  }

  function WithNext(slots: Slots, x: nat, next: nat): Slots {
    if x in slots then slots[x := slots[x].(next := next)] else slots
  }

  /** `added` goes into `dst`, linked behind `src`. */
  function Splice(slots: Slots, src: nat, dst: nat, added: Cap, flag: bool): Slots
    requires src in slots
  {
    var next := slots[src].next;
    WithPrev(WithNext(slots[dst := Cte(added, src, next, flag, flag)], src, dst), next, dst)
  }

  /** Either `added` is to the same object as `src`, or nobody has a capability to its object
      yet and it does not come between two capabilities to one object. */
  ghost predicate Insertable(slots: Slots, src: nat, added: Cap)
    requires src in slots
  {
    || SameObjectAs(slots[src].cap, added)
    || (&& (forall y :: y in slots ==> !SameObjectAs(slots[y].cap, added))
        && (slots[src].next in slots ==> !SameObjectAs(slots[src].cap, slots[slots[src].next].cap)))
  }

  /** Insertable, by objects. */
  ghost predicate Fits(many: bool, slots: Slots, src: nat, added: Cap)
    requires src in slots
  {
    || (Grouped(many, Object(added)) && Object(slots[src].cap) == Object(added))
    || (&& (forall y :: y in slots && Grouped(many, Object(added)) ==> Object(slots[y].cap) != Object(added))
        && !Same(many, slots, src, slots[src].next))
  }

  lemma InsertableFits(many: bool, slots: Slots, src: nat, added: Cap)
    requires src in slots && Insertable(slots, src, added)
    ensures Fits(many, slots, src, added)
  {
    SameObjectMeans(slots[src].cap, added);
    forall y | y in slots ensures SameObjectAs(slots[y].cap, added) <==> Object(slots[y].cap) != NullCap && Object(slots[y].cap) == Object(added) {
      SameObjectMeans(slots[y].cap, added);
    }
    if slots[src].next in slots { SameObjectMeans(slots[src].cap, slots[slots[src].next].cap); }
  }

  /** The new slot comes right after `src`. */
  lemma SpliceOrdered(many: bool, slots: Slots, order: seq<nat>, k: nat, dst: nat, added: Cap, flag: bool)
    requires Ordered(many, slots, order) && k < |order| && dst in slots && dst !in order
    requires added != NullCap && Fits(many, slots, order[k], added)
    ensures Ordered(many, Splice(slots, order[k], dst, added, flag), InsertAt(order, k + 1, dst))
  {
    var t, r := Splice(slots, order[k], dst, added, flag), InsertAt(order, k + 1, dst);
    LinksAreMutual(many, slots, order, order[k]);
    SpliceListed(many, slots, order, k, dst, added, flag);
    SpliceIsSpliced(slots, order[k], dst, added, flag);
    forall i: nat | i < |r| ensures Link(t, r, i) {
      SpliceLink(many, slots, order, t, k, dst, added, i);
    }
    forall i: nat, j: nat | i < j < |r| ensures Together(many, t, r, i, j) {
      SpliceTogether(many, slots, order, t, k, dst, added, i, j);
    }
  }

  lemma SpliceListed(many: bool, slots: Slots, order: seq<nat>, k: nat, dst: nat, added: Cap, flag: bool)
    requires Ordered(many, slots, order) && k < |order| && dst in slots && dst !in order && added != NullCap
    requires Mutual(slots, order[k])
    ensures Listed(Splice(slots, order[k], dst, added, flag), InsertAt(order, k + 1, dst))
  {
    var t, r := Splice(slots, order[k], dst, added, flag), InsertAt(order, k + 1, dst);
    var next := slots[order[k]].next;
    if next != 0 { assert next in order; }
    forall i, j | 0 <= i < j < |r| ensures r[i] != r[j] {
      assert i <= k ==> r[i] == order[i];
      assert k + 1 < j ==> r[j] == order[j - 1];
    }
    forall i | 0 <= i < |r| ensures r[i] in t && t[r[i]].cap != NullCap {
      assert r[i] == if i <= k then order[i] else if i == k + 1 then dst else order[i - 1];
    }
    forall x | x in t && x !in r ensures t[x] == EMPTY {
      assert r[k + 1] == dst;
      assert forall i :: 0 <= i < |order| ==> order[i] == r[if i <= k then i else i + 1];
    }
  }

  /** What a splice does: `dst` stands between `src` and its successor, every other link
      stays, and every other slot keeps its object. */
  ghost predicate Spliced(slots: Slots, t: Slots, src: nat, dst: nat, added: Cap)
    requires src in slots
  {
    && t.Keys == slots.Keys && dst in t && Object(t[dst].cap) == Object(added)
    && Joined(t, src, dst) && t[dst].next == slots[src].next && (slots[src].next != 0 ==> Joined(t, dst, slots[src].next))
    && (forall x :: x in slots && x != dst ==> Object(t[x].cap) == Object(slots[x].cap))
    && (forall x :: x in slots && x != dst && x != src ==> t[x].next == slots[x].next)
    && (forall x :: x in slots && x != dst && x != slots[src].next ==> t[x].prev == slots[x].prev)
  }

  lemma SpliceIsSpliced(slots: Slots, src: nat, dst: nat, added: Cap, flag: bool)
    requires src in slots && dst in slots && src != dst && Mutual(slots, src) && slots[src].next != dst && 0 !in slots
    ensures Spliced(slots, Splice(slots, src, dst, added, flag), src, dst, added)
  {
  }

  lemma SpliceLink(many: bool, slots: Slots, order: seq<nat>, t: Slots, k: nat, dst: nat, added: Cap, i: nat)
    requires Ordered(many, slots, order) && k < |order| && dst in slots && dst !in order
    requires Spliced(slots, t, order[k], dst, added)
    requires i < |order| + 1
    ensures InsertAt(order, k + 1, dst)[i] in t && Link(t, InsertAt(order, k + 1, dst), i)
  {
    hide Object, InsertAt;
    assert Link(slots, order, k);
    InsertIndex(order, k, dst, i);
    if i < |order| { InsertIndex(order, k, dst, i + 1); }
    if i < k {
      assert Link(slots, order, i);
    } else if i > k + 1 {
      assert Link(slots, order, i - 1);
    }
  }

  lemma SpliceFrame(many: bool, slots: Slots, t: Slots, src: nat, dst: nat, added: Cap, x: nat, y: nat)
    requires src in slots && Spliced(slots, t, src, dst, added) && Mutual(slots, src) && x != dst && y != dst && 0 !in slots
    ensures Same(many, t, x, y) <==> Same(many, slots, x, y)
    ensures x != src && Joined(slots, x, y) ==> Joined(t, x, y)
  {
  }

  lemma SpliceTogether(many: bool, slots: Slots, order: seq<nat>, t: Slots, k: nat, dst: nat, added: Cap, i: nat, j: nat)
    requires Ordered(many, slots, order) && k < |order| && dst in slots && dst !in order && Mutual(slots, order[k])
    requires Fits(many, slots, order[k], added) && Spliced(slots, t, order[k], dst, added)
    requires i < j < |order| + 1
    ensures Together(many, t, InsertAt(order, k + 1, dst), i, j)
  {
    hide Object, InsertAt, Link, Ordered, Spliced, Fits;
    var r := InsertAt(order, k + 1, dst);
    InsertIndex(order, k, dst, i);
    InsertIndex(order, k, dst, i + 1);
    InsertIndex(order, k, dst, j - 1);
    InsertIndex(order, k, dst, j);
    if Same(many, t, r[i], r[j]) {
      if j == k + 1 {
        SpliceLast(many, slots, order, t, k, dst, added, i);
      } else if i == k + 1 {
        SpliceFirst(many, slots, order, t, k, dst, added, j);
      } else {
        var x, y := if i <= k then i else i - 1, if j <= k then j else j - 1;
        SpliceBoth(many, slots, order, t, k, dst, added, x, y);
      }
    }
  }

  /** The new slot and an earlier one. */
  lemma SpliceLast(many: bool, slots: Slots, order: seq<nat>, t: Slots, k: nat, dst: nat, added: Cap, i: nat)
    requires Ordered(many, slots, order) && k < |order| && dst in slots && dst !in order && Mutual(slots, order[k])
    requires Fits(many, slots, order[k], added) && Spliced(slots, t, order[k], dst, added)
    requires i <= k && Same(many, t, order[i], dst)
    ensures Same(many, t, order[k], dst) && Joined(t, order[k], dst)
    ensures i < k ==> Joined(t, order[i], order[i + 1]) && Same(many, t, order[i], order[i + 1])
  {
    hide Object;
    assert Grouped(many, Object(added)) && Object(slots[order[i]].cap) == Object(added);
    if i < k {
      assert Together(many, slots, order, i, k);
      SpliceFrame(many, slots, t, order[k], dst, added, order[i], order[i + 1]);
    }
  }

  /** The new slot and a later one. */
  lemma SpliceFirst(many: bool, slots: Slots, order: seq<nat>, t: Slots, k: nat, dst: nat, added: Cap, j: nat)
    requires Ordered(many, slots, order) && k < |order| && dst in slots && dst !in order && Mutual(slots, order[k])
    requires Fits(many, slots, order[k], added) && Spliced(slots, t, order[k], dst, added)
    requires k + 1 < j < |order| + 1 && Same(many, t, dst, order[j - 1])
    ensures Joined(t, dst, order[k + 1]) && Same(many, t, dst, order[k + 1])
    ensures k + 2 < j ==> Joined(t, order[j - 2], order[j - 1]) && Same(many, t, order[j - 2], order[j - 1])
  {
    hide Object;
    assert Grouped(many, Object(added)) && Object(slots[order[j - 1]].cap) == Object(added);
    assert Together(many, slots, order, k, j - 1);
    if k + 2 < j {
      SpliceFrame(many, slots, t, order[k], dst, added, order[j - 2], order[j - 1]);
    }
  }

  /** Two old slots. */
  lemma SpliceBoth(many: bool, slots: Slots, order: seq<nat>, t: Slots, k: nat, dst: nat, added: Cap, i: nat, j: nat)
    requires Ordered(many, slots, order) && k < |order| && dst in slots && dst !in order && Mutual(slots, order[k])
    requires Fits(many, slots, order[k], added) && Spliced(slots, t, order[k], dst, added)
    requires i < j < |order|
    ensures Same(many, t, order[i], order[j]) ==>
      && (if i == k then Joined(t, order[i], dst) && Same(many, t, order[i], dst)
          else Joined(t, order[i], order[i + 1]) && Same(many, t, order[i], order[i + 1]))
      && (if j == k + 1 then Joined(t, dst, order[j]) && Same(many, t, dst, order[j])
          else Joined(t, order[j - 1], order[j]) && Same(many, t, order[j - 1], order[j]))
  {
    hide Object;
    assert Together(many, slots, order, i, j);
    SpliceFrame(many, slots, t, order[k], dst, added, order[i], order[j]);
    SpliceFrame(many, slots, t, order[k], dst, added, order[i], order[i + 1]);
    SpliceFrame(many, slots, t, order[k], dst, added, order[j - 1], order[j]);
  }

  // ----- exchanging slots -----

  function Exchange(x: nat, a: nat, b: nat): nat {
    if x == a then b else if x == b then a else x
  }

  /** Slot `x` before is the other of `a` and `b`, or itself, after; so are its neighbours. */
  predicate ExchangedAt(slots: Slots, t: Slots, a: nat, b: nat, x: nat) {
    && x in slots && Exchange(x, a, b) in t
    && var was, now := slots[x], t[Exchange(x, a, b)];
    && now.prev == Exchange(was.prev, a, b) && now.next == Exchange(was.next, a, b)
    && Object(now.cap) == Object(was.cap)
    && (if was.cap == NullCap then now == EMPTY else now.cap != NullCap)
  }

  ghost predicate Exchanged(slots: Slots, t: Slots, a: nat, b: nat) {
    && a in slots && b in slots && t.Keys == slots.Keys
    && (forall x {:trigger ExchangedAt(slots, t, a, b, x)} :: x in slots ==> ExchangedAt(slots, t, a, b, x))
  }

  ghost function ExchangeAll(order: seq<nat>, a: nat, b: nat): seq<nat> {
    seq(|order|, i requires 0 <= i < |order| => Exchange(order[i], a, b))
  }

  lemma ExchangeOrdered(many: bool, slots: Slots, order: seq<nat>, t: Slots, a: nat, b: nat)
    requires Ordered(many, slots, order) && Exchanged(slots, t, a, b)
    ensures Ordered(many, t, ExchangeAll(order, a, b))
  {
    hide Object;
    var r := ExchangeAll(order, a, b);
    forall i: nat | i < |order| ensures ExchangedAt(slots, t, a, b, order[i]) {
    }
    ExchangeListed(many, slots, order, t, a, b);
    forall i: nat | i < |r| ensures Link(t, r, i) {
      ExchangeLink(many, slots, order, t, a, b, i);
    }
    forall i: nat, j: nat | i < j < |r| ensures Together(many, t, r, i, j) {
      ExchangeTogether(many, slots, order, t, a, b, i, j);
    }
  }

  lemma ExchangeListed(many: bool, slots: Slots, order: seq<nat>, t: Slots, a: nat, b: nat)
    requires Ordered(many, slots, order) && Exchanged(slots, t, a, b)
    ensures Listed(t, ExchangeAll(order, a, b))
  {
    hide Object;
    var r := ExchangeAll(order, a, b);
    forall i | 0 <= i < |r| ensures r[i] in t && t[r[i]].cap != NullCap {
      assert ExchangedAt(slots, t, a, b, order[i]);
    }
    forall x | x in t && x !in r ensures t[x] == EMPTY {
      var y := Exchange(x, a, b);
      assert Exchange(y, a, b) == x;
      assert forall i :: 0 <= i < |order| && order[i] == y ==> r[i] == x;
      assert ExchangedAt(slots, t, a, b, y);
    }
  }

  lemma ExchangeLink(many: bool, slots: Slots, order: seq<nat>, t: Slots, a: nat, b: nat, i: nat)
    requires Ordered(many, slots, order) && Exchanged(slots, t, a, b) && i < |order|
    ensures Exchange(order[i], a, b) in t && Link(t, ExchangeAll(order, a, b), i)
  {
    hide Object;
    assert ExchangedAt(slots, t, a, b, order[i]) && Link(slots, order, i);
    if i + 1 < |order| { assert ExchangedAt(slots, t, a, b, order[i + 1]); }
  }

  lemma ExchangeTogether(many: bool, slots: Slots, order: seq<nat>, t: Slots, a: nat, b: nat, i: nat, j: nat)
    requires Ordered(many, slots, order) && Exchanged(slots, t, a, b) && i < j < |order|
    ensures Together(many, t, ExchangeAll(order, a, b), i, j)
  {
    assert Together(many, slots, order, i, j) && Listed(slots, order);
    hide Ordered, Exchange, ExchangedAt, Exchanged, Same, Joined;
    SameExchanged(many, slots, t, a, b, order[i], order[j]);
    SameExchanged(many, slots, t, a, b, order[i], order[i + 1]);
    SameExchanged(many, slots, t, a, b, order[j - 1], order[j]);
  }

  /** Exchanging keeps which slots are joined, and which have the same object. */
  lemma SameExchanged(many: bool, slots: Slots, t: Slots, a: nat, b: nat, x: nat, y: nat)
    requires Exchanged(slots, t, a, b) && x in slots && y in slots
    ensures Same(many, t, Exchange(x, a, b), Exchange(y, a, b)) <==> Same(many, slots, x, y)
    ensures Joined(slots, x, y) ==> Joined(t, Exchange(x, a, b), Exchange(y, a, b))
  {
    hide Object;
    assert ExchangedAt(slots, t, a, b, x) && ExchangedAt(slots, t, a, b, y);
  }

  /** `cte_move`. */
  function Moved(slots: Slots, added: Cap, src: nat, dst: nat): Slots
    requires src in slots
  {
    var mdb := slots[src];
    WithPrev(WithNext(slots[dst := mdb.(cap := added)][src := EMPTY], mdb.prev, dst), mdb.next, dst)
  }

  lemma MoveExchanges(many: bool, slots: Slots, order: seq<nat>, added: Cap, src: nat, dst: nat)
    requires Ordered(many, slots, order) && src in slots && dst in slots && slots[dst] == EMPTY && slots[src].cap != NullCap
    requires added != NullCap && Object(added) == Object(slots[src].cap)
    ensures Exchanged(slots, Moved(slots, added, src, dst), src, dst)
  {
    hide Object, Ordered;
    var t := Moved(slots, added, src, dst);
    LinksAreMutual(many, slots, order, src);
    forall x | x in slots ensures ExchangedAt(slots, t, src, dst, x) {
      ZeroIsNoSlot(many, slots, order, x);
      LinksAreMutual(many, slots, order, x);
      MoveExchangesAt(slots, added, src, dst, x);
    }
  }

  lemma MoveExchangesAt(slots: Slots, added: Cap, src: nat, dst: nat, x: nat)
    requires src in slots && dst in slots && slots[dst] == EMPTY && slots[src].cap != NullCap && 0 !in slots
    requires added != NullCap && Object(added) == Object(slots[src].cap)
    requires Mutual(slots, src) && x in slots && Mutual(slots, x) && (slots[x].cap == NullCap ==> slots[x] == EMPTY)
    ensures ExchangedAt(slots, Moved(slots, added, src, dst), src, dst, x)
  {
    hide Object;
    var t := Moved(slots, added, src, dst);
    assert t[dst] == slots[src].(cap := added) && t[src] == EMPTY;
    assert x != src && x != dst ==>
      && t[x].prev == (if x == slots[src].next then dst else slots[x].prev)
      && t[x].next == (if x == slots[src].prev then dst else slots[x].next);
  }

  lemma ZeroIsNoSlot(many: bool, slots: Slots, order: seq<nat>, x: nat)
    requires Ordered(many, slots, order) && x in slots
    ensures 0 !in slots && (slots[x].cap == NullCap ==> slots[x] == EMPTY)
  {
  }

  /** `cte_swap`, step by step. */
  function Swapped(slots: Slots, cap1: Cap, a: nat, cap2: Cap, b: nat): Slots
    requires a in slots && b in slots
  {
    var mdb1, mdb2 := slots[a], slots[b];
    var s := WithPrev(WithNext(slots, mdb1.prev, b), mdb1.next, b);
    var s' := s[a := mdb2.(cap := cap2)][b := mdb1.(cap := cap1)];
    WithPrev(WithNext(s', mdb2.prev, a), mdb2.next, a)
  }

  /** The caller passes capabilities to the same objects, if any. */
  predicate Swappable(slots: Slots, cap1: Cap, a: nat, cap2: Cap, b: nat) {
    && a in slots && b in slots && a != b
    && Object(cap1) == Object(slots[a].cap) && (cap1 == NullCap <==> slots[a].cap == NullCap)
    && Object(cap2) == Object(slots[b].cap) && (cap2 == NullCap <==> slots[b].cap == NullCap)
  }

  predicate Neighbours(slots: Slots, a: nat, b: nat) { Joined(slots, a, b) || Joined(slots, b, a) }

  lemma SwapExchanges(many: bool, slots: Slots, order: seq<nat>, cap1: Cap, a: nat, cap2: Cap, b: nat)
    requires Ordered(many, slots, order) && Swappable(slots, cap1, a, cap2, b) && !Neighbours(slots, a, b)
    ensures Exchanged(slots, Swapped(slots, cap1, a, cap2, b), a, b)
  {
    SwapKeys(slots, cap1, a, cap2, b);
    hide Object, Ordered, Swapped, ExchangedAt, Mutual, Neighbours;
    var t := Swapped(slots, cap1, a, cap2, b);
    LinksAreMutual(many, slots, order, a);
    LinksAreMutual(many, slots, order, b);
    ZeroIsNoSlot(many, slots, order, a);
    ZeroIsNoSlot(many, slots, order, b);
    forall x | x in slots ensures ExchangedAt(slots, t, a, b, x) {
      ZeroIsNoSlot(many, slots, order, x);
      LinksAreMutual(many, slots, order, x);
      if x == a || x == b {
        SwapEnds(slots, cap1, a, cap2, b);
      } else {
        SwapOthers(slots, cap1, a, cap2, b, x);
      }
    }
  }

  lemma SwapKeys(slots: Slots, cap1: Cap, a: nat, cap2: Cap, b: nat)
    requires a in slots && b in slots
    ensures Swapped(slots, cap1, a, cap2, b).Keys == slots.Keys
  {
  }

  lemma SwapEnds(slots: Slots, cap1: Cap, a: nat, cap2: Cap, b: nat)
    requires Swappable(slots, cap1, a, cap2, b) && !Neighbours(slots, a, b) && 0 !in slots
    requires Mutual(slots, a) && Mutual(slots, b)
    requires slots[a].cap == NullCap ==> slots[a] == EMPTY
    requires slots[b].cap == NullCap ==> slots[b] == EMPTY
    ensures var t := Swapped(slots, cap1, a, cap2, b); ExchangedAt(slots, t, a, b, a) && ExchangedAt(slots, t, a, b, b)
  {
    hide Object;
    var t := Swapped(slots, cap1, a, cap2, b);
    assert slots[a].prev != b && slots[a].next != b && slots[b].prev != a && slots[b].next != a;
    assert t[a] == slots[b].(cap := cap2) && t[b] == slots[a].(cap := cap1);
  }

  lemma SwapOthers(slots: Slots, cap1: Cap, a: nat, cap2: Cap, b: nat, x: nat)
    requires Swappable(slots, cap1, a, cap2, b) && !Neighbours(slots, a, b) && 0 !in slots
    requires Mutual(slots, a) && Mutual(slots, b) && x in slots && x != a && x != b && Mutual(slots, x)
    requires slots[x].cap == NullCap ==> slots[x] == EMPTY
    ensures ExchangedAt(slots, Swapped(slots, cap1, a, cap2, b), a, b, x)
  {
    hide Object, Swapped;
    SwapLinks(slots, cap1, a, cap2, b, x);
  }

  lemma SwapLinks(slots: Slots, cap1: Cap, a: nat, cap2: Cap, b: nat, x: nat)
    requires a in slots && b in slots && x in slots && x != a && x != b && !Neighbours(slots, a, b)
    ensures var t := Swapped(slots, cap1, a, cap2, b);
      && x in t && t[x].cap == slots[x].cap
      && t[x].prev == (if x == slots[b].next then a else if x == slots[a].next then b else slots[x].prev)
      && t[x].next == (if x == slots[b].prev then a else if x == slots[a].prev then b else slots[x].next)
      && (t[x].revocable, t[x].firstBadged) == (slots[x].revocable, slots[x].firstBadged)
  {
  }

  /** Swapping neighbours leaves a slot linked to itself. */
  lemma SwapNeighboursLoops(slots: Slots, cap1: Cap, a: nat, cap2: Cap, b: nat)
    requires a in slots && b in slots && a != b && Neighbours(slots, a, b)
    ensures var t := Swapped(slots, cap1, a, cap2, b); a in t && t[a].next == a
  {
    var mdb1, mdb2 := slots[a], slots[b];
    var s := WithPrev(WithNext(slots, mdb1.prev, b), mdb1.next, b);
    var s' := s[a := mdb2.(cap := cap2)][b := mdb1.(cap := cap1)];
    assert s'[a] == mdb2.(cap := cap2);
    var s'' := WithNext(s', mdb2.prev, a);
    assert s''[a].next == a;
    assert WithPrev(s'', mdb2.next, a)[a].next == a;
  }

  /** So a swap keeps the lists exactly when the two slots are not neighbours. */
  lemma SwapIffApart(many: bool, slots: Slots, cap1: Cap, a: nat, cap2: Cap, b: nat)
    requires WellLinked(many, slots) && Swappable(slots, cap1, a, cap2, b)
    ensures WellLinked(many, Swapped(slots, cap1, a, cap2, b)) <==> !Neighbours(slots, a, b)
  {
    var order :| Ordered(many, slots, order);
    var t := Swapped(slots, cap1, a, cap2, b);
    if Neighbours(slots, a, b) {
      SwapNeighboursLoops(slots, cap1, a, cap2, b);
      forall r | Ordered(many, t, r) ensures false {
        LinksAreMutual(many, t, r, a);
      }
    } else {
      SwapExchanges(many, slots, order, cap1, a, cap2, b);
      ExchangeOrdered(many, slots, order, t, a, b);
    }
  }

  // ----- emptying a slot -----

  /** `set_empty`: the successor inherits the first-badged mark. */
  function Emptied(slots: Slots, x: nat): Slots
    requires x in slots
  {
    if slots[x].cap == NullCap then slots
    else
      var mdb := slots[x];
      var s := WithNext(slots, mdb.prev, mdb.next);
      var s' := if mdb.next in s
                then s[mdb.next := s[mdb.next].(prev := mdb.prev, firstBadged := s[mdb.next].firstBadged || mdb.firstBadged)]
                else s;
      s'[x := EMPTY]
  }

  ghost predicate Unlinked(slots: Slots, t: Slots, x: nat)
    requires x in slots
  {
    && t.Keys == slots.Keys && t[x] == EMPTY
    && (forall y :: y in slots && y != x ==> t[y].cap == slots[y].cap)
    && (forall y :: y in slots && y != x ==> t[y].next == if y == slots[x].prev then slots[x].next else slots[y].next)
    && (forall y :: y in slots && y != x ==> t[y].prev == if y == slots[x].next then slots[x].prev else slots[y].prev)
    && (forall y :: y in slots && y != x && y != slots[x].prev && y != slots[x].next ==> t[y] == slots[y])
  }

  lemma EmptyUnlinks(slots: Slots, x: nat)
    requires x in slots && Mutual(slots, x) && slots[x].cap != NullCap && 0 !in slots
    ensures Unlinked(slots, Emptied(slots, x), x)
    ensures slots[x].next != 0 ==>
      Emptied(slots, x)[slots[x].next].firstBadged == (slots[slots[x].next].firstBadged || slots[x].firstBadged)
  {
  }

  lemma EmptyOrdered(many: bool, slots: Slots, order: seq<nat>, t: Slots, k: nat)
    requires Ordered(many, slots, order) && k < |order| && Unlinked(slots, t, order[k])
    ensures Ordered(many, t, Cut(order, k))
  {
    var r := Cut(order, k);
    LinksAreMutual(many, slots, order, order[k]);
    EmptyListed(many, slots, order, t, k);
    forall i: nat | i < |r| ensures Link(t, r, i) {
      EmptyLink(many, slots, order, t, k, i);
    }
    forall i: nat, j: nat | i < j < |r| ensures Together(many, t, r, i, j) {
      EmptyTogether(many, slots, order, t, k, i, j);
    }
  }

  lemma EmptyListed(many: bool, slots: Slots, order: seq<nat>, t: Slots, k: nat)
    requires Ordered(many, slots, order) && k < |order| && Unlinked(slots, t, order[k]) && Mutual(slots, order[k])
    ensures Listed(t, Cut(order, k))
  {
    hide Object, Cut, Link, Together;
    var x := order[k];
    var r := Cut(order, k);
    forall i, j | 0 <= i < j < |r| ensures r[i] != r[j] {
      CutIndex(order, k, i);
      CutIndex(order, k, j);
    }
    forall i | 0 <= i < |r| ensures r[i] in t && t[r[i]].cap != NullCap {
      CutIndex(order, k, i);
      assert r[i] in slots && r[i] != x;
    }
    forall y | y in t && y !in r ensures t[y] == EMPTY {
      if y != x {
        CutMembers(order, k);
        assert slots[y] == EMPTY;
      }
    }
  }

  lemma EmptyLink(many: bool, slots: Slots, order: seq<nat>, t: Slots, k: nat, i: nat)
    requires Ordered(many, slots, order) && k < |order| && Unlinked(slots, t, order[k]) && Mutual(slots, order[k]) && i < |order| - 1
    ensures Cut(order, k)[i] in t && Link(t, Cut(order, k), i)
  {
    hide Object, Cut;
    CutIndex(order, k, i);
    if i + 1 < |order| - 1 { CutIndex(order, k, i + 1); }
    assert Link(slots, order, k);
    if i < k {
      assert Link(slots, order, i);
    } else {
      assert Link(slots, order, i + 1);
    }
  }

  lemma EmptyTogether(many: bool, slots: Slots, order: seq<nat>, t: Slots, k: nat, i: nat, j: nat)
    requires Ordered(many, slots, order) && k < |order| && Unlinked(slots, t, order[k]) && i < j < |order| - 1
    ensures Together(many, t, Cut(order, k), i, j)
  {
    hide Object, Cut, Link, Unlinked;
    var r := Cut(order, k);
    CutIndex(order, k, i);
    CutIndex(order, k, i + 1);
    CutIndex(order, k, j - 1);
    CutIndex(order, k, j);
    LinksAreMutual(many, slots, order, order[k]);
    if Same(many, t, r[i], r[j]) {
      EmptySuccessor(many, slots, order, t, k, if i < k then i else i + 1, if j < k then j else j + 1);
      EmptyPredecessor(many, slots, order, t, k, if i < k then i else i + 1, if j < k then j else j + 1);
    }
  }

  lemma EmptySuccessor(many: bool, slots: Slots, order: seq<nat>, t: Slots, k: nat, i: nat, j: nat)
    requires Ordered(many, slots, order) && k < |order| && Unlinked(slots, t, order[k]) && Mutual(slots, order[k])
    requires i < j < |order| && i != k && j != k && Same(many, t, order[i], order[j])
    ensures var s := if i + 1 == k then order[k + 1] else order[i + 1];
      Joined(t, order[i], s) && Same(many, t, order[i], s)
  {
    hide Object;
    assert Together(many, slots, order, i, j);
    if i + 1 == k { assert Together(many, slots, order, k, j); }
    assert Link(slots, order, k);
  }

  lemma EmptyPredecessor(many: bool, slots: Slots, order: seq<nat>, t: Slots, k: nat, i: nat, j: nat)
    requires Ordered(many, slots, order) && k < |order| && Unlinked(slots, t, order[k]) && Mutual(slots, order[k])
    requires i < j < |order| && i != k && j != k && Same(many, t, order[i], order[j])
    ensures var p := if j - 1 == k then order[k - 1] else order[j - 1];
      Joined(t, p, order[j]) && Same(many, t, p, order[j])
  {
    hide Object;
    assert Together(many, slots, order, i, j);
    if j - 1 == k { assert Together(many, slots, order, i, k); }
    assert Link(slots, order, k);
  }

  // ----- changing a capability in place -----

  function Updated(slots: Slots, x: nat, c: Cap): Slots
    requires x in slots
  {
    slots[x := slots[x].(cap := c)]
  }

  /** The object stays, or the last capability to it gives it up. */
  ghost predicate Updatable(slots: Slots, x: nat, c: Cap) {
    && x in slots && slots[x].cap != NullCap && c != NullCap
    && (Object(c) == Object(slots[x].cap) || (Object(c) == NullCap && OnlyCap(slots, x)))
  }

  lemma UpdateOrdered(many: bool, slots: Slots, order: seq<nat>, x: nat, c: Cap)
    requires Ordered(many, slots, order) && Updatable(slots, x, c)
    ensures Ordered(many, Updated(slots, x, c), order)
  {
    hide Object;
    var t := Updated(slots, x, c);
    assert x in order;
    forall i: nat | i < |order| ensures Link(t, order, i) {
      assert Link(slots, order, i);
    }
    forall i: nat, j: nat | i < j < |order| ensures Together(many, t, order, i, j) {
      assert Together(many, slots, order, i, j);
      UpdateTogether(many, slots, x, c, order[i], order[j]);
      UpdateTogether(many, slots, x, c, order[i], order[i + 1]);
      UpdateTogether(many, slots, x, c, order[j - 1], order[j]);
    }
  }

  lemma UpdateTogether(many: bool, slots: Slots, x: nat, c: Cap, y: nat, z: nat)
    requires Updatable(slots, x, c) && y in slots && z in slots && y != z
    ensures Same(many, Updated(slots, x, c), y, z) <==> Same(many, slots, y, z)
  {
    hide Object, SameObjectAs;
    SameObjectMeans(slots[y].cap, slots[z].cap);
    SameObjectMeans(slots[z].cap, slots[y].cap);
  }
}
