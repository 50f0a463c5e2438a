/** Boot: the list of reserved regions and the table of free memory, kept in place. */
module BootMemory {
  import opened BootSweep
  import opened FreeMemory
  import opened Regions
  import Untyped

  const MAX_NUM_FREEMEM_REG: nat := 16
  const NUM_RESERVED_REGIONS: nat := 3
  const MAX_NUM_RESV_REG: nat := MAX_NUM_FREEMEM_REG + NUM_RESERVED_REGIONS

  ghost predicate Touches(s: seq<Region>, r: Region) {
    exists i :: 0 <= i < |s| && (s[i].start == r.end || s[i].end == r.start)
  }

  // ----- list lemmas -----

  /** Growing region `i` by a region next to it. */
  lemma GrowCover(s: seq<Region>, i: nat, grown: Region, r: Region)
    requires i < |s| && r.start <= r.end && NoneEmpty(s)
    requires (s[i].start == r.end && grown == Region(r.start, s[i].end)) || (s[i].end == r.start && grown == Region(s[i].start, r.end))
    ensures Adds(s, r, s[i := grown])
  {
    assert s[i := grown] == s[..i] + [grown] + s[i + 1..];
    ReplaceCover(s, i, i + 1, [grown]);
    assert s[i..i + 1] == [s[i]];
    forall x ensures Covers(s[i := grown], x) <==> Covers(s, x) || Contains(r, x) {
      CoversOne(grown, x);
      CoversOne(s[i], x);
    }
  }

  lemma InsertCover(s: seq<Region>, i: nat, r: Region)
    requires i <= |s|
    ensures Adds(s, r, s[..i] + [r] + s[i..])
  {
    ReplaceCover(s, i, i, [r]);
    assert s[i..i] == [];
    forall x ensures Covers(s[..i] + [r] + s[i..], x) <==> Covers(s, x) || Contains(r, x) {
      CoversOne(r, x);
      CoversNone(x);
    }
  }

  /** Joining two regions that touch. */
  lemma JoinCover(s: seq<Region>, i: nat)
    requires 0 < i < |s| && s[i - 1].end == s[i].start && NoneEmpty(s)
    ensures SameCover(s, s[..i - 1] + [Region(s[i - 1].start, s[i].end)] + s[i + 1..])
  {
    var joined := Region(s[i - 1].start, s[i].end);
    ReplaceCover(s, i - 1, i + 1, [joined]);
    assert s[i - 1..i + 1] == [s[i - 1]] + [s[i]];
    forall x ensures Covers(s, x) <==> Covers(s[..i - 1] + [joined] + s[i + 1..], x) {
      CoversOne(joined, x);
      CoversConcat([s[i - 1]], [s[i]], x);
      CoversOne(s[i - 1], x);
      CoversOne(s[i], x);
    }
  }

  /** The first `i` regions are separate, the rest may touch. */
  ghost predicate SeparateTo(s: seq<Region>, i: nat) {
    Ascending(s) && NoneEmpty(s) && forall j, k :: 0 <= j < k < i && k < |s| ==> s[j].end < s[k].start
  }

  lemma JoinSeparate(s: seq<Region>, i: nat, t: seq<Region>)
    requires 0 < i < |s| && SeparateTo(s, i) && s[i - 1].end == s[i].start
    requires t == s[..i - 1] + [Region(s[i - 1].start, s[i].end)] + s[i + 1..]
    ensures SeparateTo(t, i) && SameCover(s, t)
  {
    JoinCover(s, i);
    hide Covers, SameCover;
    var joined := Region(s[i - 1].start, s[i].end);
    assert forall j :: 0 <= j < |t| ==> t[j] == if j < i - 1 then s[j] else if j == i - 1 then joined else s[j + 1];
  }

  lemma NextSeparate(s: seq<Region>, i: nat)
    requires 0 < i < |s| && SeparateTo(s, i) && s[i - 1].end != s[i].start
    ensures SeparateTo(s, i + 1)
  {
    forall j, k | 0 <= j < k < i + 1 && k < |s| ensures s[j].end < s[k].start {
      if k == i && j < i - 1 { assert s[j].end < s[i - 1].start; }
    }
  }

  lemma SameCoverTrans(s: seq<Region>, t: seq<Region>, u: seq<Region>)
    requires SameCover(s, t) && SameCover(t, u)
    ensures SameCover(s, u)
  {
  }

  lemma AddsSame(s: seq<Region>, r: Region, t: seq<Region>, u: seq<Region>)
    requires Adds(s, r, t) && SameCover(t, u)
    ensures Adds(s, r, u)
  {
  }

  ghost predicate AllBelow(s: seq<Region>, i: nat, r: Region)
    requires i <= |s|
  {
    forall j :: 0 <= j < i ==> s[j].end < r.start
  }

  /** A region grown downwards by one that overlaps nothing. */
  lemma GrownDown(s: seq<Region>, i: nat, r: Region)
    requires Separate(s) && i < |s| && s[i].start == r.end && r.start < r.end && AllBelow(s, i, r)
    ensures var t := s[i := Region(r.start, s[i].end)]; Ascending(t) && NoneEmpty(t) && Adds(s, r, t)
    ensures Touches(s, r)
  {
    GrowCover(s, i, Region(r.start, s[i].end), r);
    hide Adds, Covers;
  }

  /** A region grown upwards by one that overlaps nothing. */
  lemma GrownUp(s: seq<Region>, i: nat, r: Region)
    requires Separate(s) && i < |s| && s[i].end == r.start && r.start < r.end && Avoids(s, r)
    ensures var t := s[i := Region(s[i].start, r.end)]; Ascending(t) && NoneEmpty(t) && Adds(s, r, t)
    ensures Touches(s, r)
  {
    GrowCover(s, i, Region(s[i].start, r.end), r);
    hide Adds, Covers;
    var t := s[i := Region(s[i].start, r.end)];
    forall j, k | 0 <= j < k < |t| ensures t[j].end <= t[k].start {
      assert !Overlap(s[k], r);
    }
  }

  lemma InsertSeparate(s: seq<Region>, i: nat, r: Region)
    requires Separate(s) && i <= |s| && r.start < r.end && AllBelow(s, i, r) && (i < |s| ==> r.end < s[i].start)
    ensures var t := s[..i] + [r] + s[i..]; Separate(t) && Adds(s, r, t)
    ensures !Touches(s, r)
  {
    InsertCover(s, i, r);
    hide Adds, Covers;
    var t := s[..i] + [r] + s[i..];
    assert forall j :: 0 <= j < |t| ==> t[j] == if j < i then s[j] else if j == i then r else s[j - 1];
  }

  ghost predicate NoneTouch(s: seq<Region>) { forall i :: 0 < i < |s| ==> s[i - 1].end != s[i].start }

  // The same with a region that does overlap: the list is no longer separate.

  lemma GrownDownClash(s: seq<Region>, i: nat, r: Region)
    requires Separate(s) && i < |s| && s[i].start == r.end && !Avoids(s, r)
    ensures var t := s[i := Region(r.start, s[i].end)]; NoneTouch(t) && !Separate(t)
  {
    var t := s[i := Region(r.start, s[i].end)];
    var j :| 0 <= j < |s| && Overlap(s[j], r);
    assert j < i && t[i - 1].end > t[i].start;
  }

  lemma GrownUpClash(s: seq<Region>, i: nat, r: Region)
    requires Separate(s) && i < |s| && s[i].end == r.start && !Avoids(s, r)
    ensures var t := s[i := Region(s[i].start, r.end)]; NoneTouch(t) && !Separate(t)
  {
    var t := s[i := Region(s[i].start, r.end)];
    var j :| 0 <= j < |s| && Overlap(s[j], r);
    assert j > i && t[i].end > t[i + 1].start;
  }

  lemma InsertClash(s: seq<Region>, i: nat, r: Region)
    requires Separate(s) && i <= |s| && (i < |s| ==> r.end < s[i].start) && !Avoids(s, r)
    ensures !Separate(s[..i] + [r] + s[i..])
  {
    var t := s[..i] + [r] + s[i..];
    var j :| 0 <= j < |s| && Overlap(s[j], r);
    assert j < i && t[i - 1].end > t[i].start;
  }

  /** A region that neither touches nor overlaps `r` and does not start above it is below it. */
  lemma OneMoreBelow(s: seq<Region>, i: nat, r: Region)
    requires Separate(s) && Avoids(s, r) && i < |s| && r.start < r.end && AllBelow(s, i, r)
    requires s[i].start != r.end && s[i].end != r.start && s[i].start <= r.end
    ensures AllBelow(s, i + 1, r)
  {
    assert !Overlap(s[i], r);
  }

  // ----- what merging and reserving do to the list -----

  /** Merging turns ascending regions into separate ones, and changes nothing if none touch. */
  ghost predicate Merged(s: seq<Region>, t: seq<Region>) {
    && |t| <= |s|
    && (Ascending(s) && NoneEmpty(s) ==> Separate(t) && SameCover(s, t))
    && (NoneTouch(s) ==> t == s)
  }

  function Joined(s: seq<Region>, i: nat): seq<Region>
    requires 0 < i < |s|
  {
    s[..i - 1] + [Region(s[i - 1].start, s[i].end)] + s[i + 1..]
  }

  lemma Removed(s: seq<Region>, i: nat, t: seq<Region>)
    requires i < |s| && |t| == |s| - 1
    requires forall k :: 0 <= k < i ==> t[k] == s[k]
    requires forall k :: i <= k < |t| ==> t[k] == s[k + 1]
    ensures t == s[..i] + s[i + 1..]
  {
  }

  lemma Inserted(s: seq<Region>, i: nat, r: Region, t: seq<Region>)
    requires i <= |s| && |t| == |s| + 1 && t[i] == r
    requires forall k :: 0 <= k < i ==> t[k] == s[k]
    requires forall k :: i < k < |t| ==> t[k] == s[k - 1]
    ensures t == s[..i] + [r] + s[i..]
  {
  }

  /** `s` has become `t`, with the first `i` regions merged. */
  ghost predicate MergedTo(s: seq<Region>, t: seq<Region>, i: nat) {
    && |t| <= |s|
    && (Ascending(s) && NoneEmpty(s) ==> SeparateTo(t, i) && SameCover(s, t))
    && (NoneTouch(s) ==> t == s)
  }

  lemma MergeStart(s: seq<Region>)
    ensures MergedTo(s, s, 1)
  {
  }

  lemma MergeJoin(s: seq<Region>, t: seq<Region>, i: nat)
    requires MergedTo(s, t, i) && 0 < i < |t| && t[i - 1].end == t[i].start
    ensures MergedTo(s, Joined(t, i), i)
  {
    assert !NoneTouch(s) by { if t == s { assert s[i - 1].end == s[i].start; } }
    hide Ascending, NoneEmpty, SeparateTo, SameCover;
    if Ascending(s) && NoneEmpty(s) {
      JoinSeparate(t, i, Joined(t, i));
      SameCoverTrans(s, t, Joined(t, i));
    }
  }

  lemma MergeNext(s: seq<Region>, t: seq<Region>, i: nat)
    requires MergedTo(s, t, i) && 0 < i < |t| && t[i - 1].end != t[i].start
    ensures MergedTo(s, t, i + 1)
  {
    hide Ascending, NoneEmpty, SeparateTo, SameCover;
    if Ascending(s) && NoneEmpty(s) { NextSeparate(t, i); }
  }

  lemma MergeEnd(s: seq<Region>, t: seq<Region>, i: nat)
    requires MergedTo(s, t, i) && i >= |t|
    ensures Merged(s, t)
  {
    hide SameCover;
  }

  /** Reserving a region that overlaps nothing adds exactly its addresses, unless the table is
      full; reserving one that does overlap something spoils the list. */
  ghost predicate Reserves(s: seq<Region>, r: Region, t: seq<Region>, ok: bool) {
    && (Separate(s) && Avoids(s, r) ==>
          && Separate(t) && |t| <= |s| + 1 && (ok <==> IsEmpty(r) || Touches(s, r) || |s| + 1 < MAX_NUM_RESV_REG)
          && (ok ==> Adds(s, r, t)) && (!ok ==> t == s))
    && (Separate(s) && !IsEmpty(r) && ok && !Avoids(s, r) ==> !Separate(t))
    && (!ok ==> t == s && |s| + 1 >= MAX_NUM_RESV_REG)
  }

  lemma ReservesDown(s: seq<Region>, i: nat, r: Region, t: seq<Region>)
    requires i < |s| && s[i].start == r.end && r.start < r.end && Merged(s[i := Region(r.start, s[i].end)], t)
    requires Separate(s) && Avoids(s, r) ==> AllBelow(s, i, r)
    ensures Reserves(s, r, t, true)
  {
    hide Separate, Ascending, NoneEmpty, Avoids, AllBelow, Touches, NoneTouch, Adds, SameCover;
    if Separate(s) && Avoids(s, r) {
      GrownDown(s, i, r);
      AddsSame(s, r, s[i := Region(r.start, s[i].end)], t);
    } else if Separate(s) {
      GrownDownClash(s, i, r);
    }
  }

  lemma ReservesUp(s: seq<Region>, i: nat, r: Region, t: seq<Region>)
    requires i < |s| && s[i].end == r.start && r.start < r.end && Merged(s[i := Region(s[i].start, r.end)], t)
    ensures Reserves(s, r, t, true)
  {
    hide Separate, Ascending, NoneEmpty, Avoids, AllBelow, Touches, NoneTouch, Adds, SameCover;
    if Separate(s) && Avoids(s, r) {
      GrownUp(s, i, r);
      AddsSame(s, r, s[i := Region(s[i].start, r.end)], t);
    } else if Separate(s) {
      GrownUpClash(s, i, r);
    }
  }

  lemma ReservesInsert(s: seq<Region>, i: nat, r: Region)
    requires i <= |s| && (i < |s| ==> s[i].start > r.end) && r.start < r.end
    requires Separate(s) && Avoids(s, r) ==> AllBelow(s, i, r)
    ensures |s| + 1 < MAX_NUM_RESV_REG ==> Reserves(s, r, s[..i] + [r] + s[i..], true)
    ensures |s| + 1 >= MAX_NUM_RESV_REG ==> Reserves(s, r, s, false)
  {
    hide Separate, Ascending, NoneEmpty, Avoids, AllBelow, Touches, Adds;
    if Separate(s) && Avoids(s, r) {
      InsertSeparate(s, i, r);
    } else if Separate(s) {
      InsertClash(s, i, r);
    }
  }

  lemma ReservesNothing(s: seq<Region>, r: Region)
    requires r.start == r.end
    ensures Reserves(s, r, s, true)
  {
  }

  lemma StillBelow(s: seq<Region>, i: nat, r: Region)
    requires i < |s| && r.start < r.end && s[i].start != r.end && s[i].end != r.start && s[i].start <= r.end
    requires Separate(s) && Avoids(s, r) ==> AllBelow(s, i, r)
    ensures Separate(s) && Avoids(s, r) ==> AllBelow(s, i + 1, r)
  {
    hide Separate, Avoids, AllBelow;
    if Separate(s) && Avoids(s, r) { OneMoreBelow(s, i, r); }
  }

  /** A region that overlaps nothing is marked, if there is room. */
  ghost predicate MarkedBy(s: seq<Region>, r: Region, t: seq<Region>) {
    Separate(t) && |t| <= |s| + 1 && Marks(s, [r], t, |s| + 1 < MAX_NUM_RESV_REG)
  }

  lemma ReservesMarks(s: seq<Region>, r: Region, t: seq<Region>, ok: bool)
    requires Separate(s) && Avoids(s, r) && Reserves(s, r, t, ok)
    ensures MarkedBy(s, r, t)
  {
    hide Separate, Avoids, Touches;
    forall x ensures Covers([r], x) <==> Contains(r, x) { CoversOne(r, x); }
  }

  // ----- the input of the sweep -----

  /** What is checked of the input. */
  ghost predicate Checked(available: seq<Region>, resv: seq<Region>) {
    available != [] && NoneEmpty(available) && Ascending(resv)
  }

  method CheckAvailableMemory(available: seq<Region>) returns (ok: bool)
    ensures ok <==> available != [] && NoneEmpty(available)
  {
    if available == [] {
      return false;
    }
    for i := 0 to |available|
      invariant forall k :: 0 <= k < i ==> available[k].start < available[k].end
    {
      if available[i].start > available[i].end {
        return false;
      }
      if available[i].start == available[i].end {
        return false;
      }
    }
    return true;
  }

  method CheckReservedMemory(resv: seq<Region>) returns (ok: bool)
    ensures ok <==> Ascending(resv)
  {
    if resv == [] {
      return true;
    }
    var last := resv[0];
    for i := 0 to |resv|
      invariant Ascending(resv[..i]) && last == resv[if i == 0 then 0 else i - 1]
    {
      var r := resv[i];
      if r.start > r.end {
        return false;
      }
      if i > 0 && r.start < last.end {
        return false;
      }
      assert resv[..i + 1] == resv[..i] + [r];
      last := r;
    }
    assert resv[..|resv|] == resv;
    return true;
  }

  /** `ceiling_kernel_window`. */
  function Ceiling(p: nat, top: nat): nat { if p > top then top else p }

  function Clipped(s: seq<Region>, top: nat): (t: seq<Region>)
    ensures |t| == |s| && forall i :: 0 <= i < |s| ==> t[i] == Region(Ceiling(s[i].start, top), Ceiling(s[i].end, top))
  {
    if s == [] then [] else [Region(Ceiling(s[0].start, top), Ceiling(s[0].end, top))] + Clipped(s[1..], top)
  }

  lemma {:induction false} ClippedDisjoint(s: seq<Region>, top: nat)
    requires Disjoint(s)
    ensures Disjoint(Clipped(s, top))
  {
    var t := Clipped(s, top);
    forall i, j | 0 <= i < j < |t| ensures !Overlap(t[i], t[j]) { assert !Overlap(s[i], s[j]); }
  }

  /** Clipping keeps exactly the addresses below the limit. */
  lemma {:induction false} ClippedCover(s: seq<Region>, top: nat, x: int)
    ensures Covers(Clipped(s, top), x) <==> Covers(s, x) && x < top
  {
    var t := Clipped(s, top);
    forall i | 0 <= i < |s| ensures Contains(t[i], x) <==> Contains(s[i], x) && x < top {
    }
  }

  method Clip(available: seq<Region>, top: nat) returns (avail: array<Region>)
    requires |available| <= MAX_NUM_FREEMEM_REG
    ensures fresh(avail) && avail.Length == MAX_NUM_FREEMEM_REG && avail[..|available|] == Clipped(available, top)
  {
    avail := new Region[MAX_NUM_FREEMEM_REG](_ => NOTHING);
    for i := 0 to |available|
      invariant forall k :: 0 <= k < i ==> avail[k] == Region(Ceiling(available[k].start, top), Ceiling(available[k].end, top))
    {
      avail[i] := available[i];
      avail[i] := Region(avail[i].start, Ceiling(avail[i].end, top));
      avail[i] := Region(Ceiling(avail[i].start, top), avail[i].end);
    }
  }

  ghost predicate AllAvoid(s: seq<Region>, t: seq<Region>) { forall j :: 0 <= j < |t| ==> Avoids(s, t[j]) }

  /** The available regions are disjoint, in any order, no reserved region leaks, and what was
      marked before is elsewhere. */
  ghost predicate CanSweep(marked: seq<Region>, available: seq<Region>, top: nat, r: seq<Region>) {
    var a := Clipped(available, top);
    Separate(marked) && Disjoint(available) && !Leaks(a, r) && AllAvoid(marked, a) && AllAvoid(marked, r)
  }

  /** The table of marked regions has a slot for every region that may be added. */
  predicate HasRoom(marked: seq<Region>, a: seq<Region>, r: seq<Region>) { |marked| + |r| + |Free(a, r)| < MAX_NUM_RESV_REG }

  /** What is handed out is what is available and not reserved; nothing is marked but what was
      before, what is available and what is reserved, and with room all of that. */
  ghost predicate Swept(before: seq<Region>, a: seq<Region>, r: seq<Region>, marked: seq<Region>) {
    && (forall x :: Covers(Free(a, r), x) <==> Covers(a, x) && !Covers(r, x))
    && (forall x :: Covers(marked, x) ==> Covers(before, x) || Covers(r, x) || Covers(a, x))
    && (HasRoom(before, a, r) ==> forall x :: Covers(before, x) || Covers(r, x) || Covers(a, x) ==> Covers(marked, x))
  }

  lemma ApartByAvoid(s: seq<Region>, t: seq<Region>, x: int)
    requires AllAvoid(s, t) && Covers(s, x)
    ensures !Covers(t, x)
  {
    var i :| 0 <= i < |s| && Contains(s[i], x);
    forall j | 0 <= j < |t| ensures !Contains(t[j], x) { assert Avoids(s, t[j]) && !Overlap(s[i], t[j]); }
  }

  lemma SweepStart(s: Sweep)
    requires Ascending(s.r) && Disjoint(s.a) && !Leaks(s.a, s.r) && AllAvoid(s.before, s.a) && AllAvoid(s.before, s.r)
    requires s.allReserved == s.r && s.allFree == Free(s.a, s.r) && s.marked == s.before && s.free == []
    ensures SweepOk(s)
  {
    assert s.free + Free(s.a, s.r) == s.allFree;
    hide Free, Ascending, Disjoint, Leaks, AllAvoid, Covers;
    forall x ensures AddressOk(s, x) {
      CoversNone(x);
      if Covers(s.before, x) {
        ApartByAvoid(s.before, s.a, x);
        ApartByAvoid(s.before, s.r, x);
      }
    }
  }

  /** The whole sweep marks available and reserved memory. */
  lemma {:induction false} SweepEnd(s: Sweep, a0: seq<Region>)
    requires SweepOk(s) && s.a == [] && s.r == [] && s.allFree == Free(a0, s.allReserved) && s.room == HasRoom(s.before, a0, s.allReserved)
    requires Ascending(s.allReserved) && !Leaks(a0, s.allReserved)
    ensures s.free == s.allFree && Swept(s.before, a0, s.allReserved, s.marked)
  {
    EndFacts(s);
    hide Covers, Free, Leaks, Ascending, HasRoom, Disjoint;
    forall x ensures Covers(s.allFree, x) <==> Covers(a0, x) && !Covers(s.allReserved, x) {
      NoLeakIsExact(a0, s.allReserved, x);
    }
    forall x ensures Covers(s.marked, x) ==> Covers(s.before, x) || Covers(s.allReserved, x) || Covers(a0, x) {
      assert AddressOk(s, x);
    }
    forall x | s.room ensures Covers(s.before, x) || Covers(s.allReserved, x) || Covers(a0, x) ==> Covers(s.marked, x) {
      assert AddressOk(s, x);
    }
  }

  lemma EndFacts(s: Sweep)
    requires Listed(s) && s.a == [] && s.r == []
    ensures s.free == s.allFree && Done(s) == s.allReserved
  {
    hide Covers, Ascending;
    assert s.free + Free([], []) == s.free;
  }

  /** The marks are in order, and with room there is a slot for every region still to be added. */
  ghost predicate Marking(s: Sweep) {
    SweepOk(s) && Separate(s.marked) && (s.room ==> HasRoom(s.marked, s.a, s.r))
  }

  /** A step in which `marked` became what is marked. */
  lemma MarkingStep(s: Sweep, marked: seq<Region>)
    requires Marking(s) && s.a != [] && s.r != [] && Marks(s.marked, News(s), marked, s.room)
    requires Separate(marked) && |marked| <= |s.marked| + |News(s)|
    ensures Marking(Stepped(s, marked))
  {
    SweepStep(s, marked);
    StepListed(s, marked);
    RestOfReserved(s.a, s.r);
    hide SweepOk, Separate, Free, Rest, Found, Marks;
  }

  /** One region is found or done with. */
  lemma OneMarked(s: Sweep, q: Region, marked: seq<Region>)
    requires Marking(s) && s.a != [] && s.r != [] && News(s) == [q] && MarkedBy(s.marked, q, marked)
    ensures Marking(Stepped(s, marked))
  {
    RoomForNews(s);
    MarkingStep(s, marked);
  }

  lemma RoomForNews(s: Sweep)
    requires Marking(s) && s.a != [] && s.r != []
    ensures s.room ==> |s.marked| + |News(s)| < MAX_NUM_RESV_REG
  {
    StepListed(s, s.marked);
    RestOfReserved(s.a, s.r);
    hide SweepOk, Separate, Free, Rest, Found;
  }

  /** A region is found, and the reserved one above it is done with. */
  lemma BothMarked(s: Sweep, f: Region, middle: seq<Region>, marked: seq<Region>)
    requires Marking(s) && s.a != [] && s.r != [] && Found(s.a, s.r) == [f] && |Rest(s.a, s.r).1| < |s.r|
    requires MarkedBy(s.marked, f, middle) && MarkedBy(middle, s.r[0], marked)
    ensures Marking(Stepped(s, marked))
  {
    RoomForNews(s);
    hide Free, Rest, Found, Separate, Covers;
    assert News(s) == [f] + [s.r[0]];
    forall x ensures Covers(News(s), x) <==> Covers([f], x) || Covers([s.r[0]], x) { CoversConcat([f], [s.r[0]], x); }
    MarkingStep(s, marked);
  }

  lemma QuietMarked(s: Sweep)
    requires Marking(s) && s.a != [] && s.r != [] && Found(s.a, s.r) == []
    requires |Rest(s.a, s.r).1| < |s.r| ==> IsEmpty(s.r[0])
    ensures Marking(Stepped(s, s.marked))
  {
    QuietStep(s);
    StepListed(s, s.marked);
    RestOfReserved(s.a, s.r);
    hide SweepOk, Separate, Free, Rest, Found;
  }

  /** A region of the rest is dealt with. */
  lemma FinishMarked(s: Sweep, marked: seq<Region>)
    requires Marking(s) && (s.a == []) != (s.r == [])
    requires var q := (if s.a == [] then s.r else s.a)[0]; if IsEmpty(q) then marked == s.marked else MarkedBy(s.marked, q, marked)
    ensures Marking(Finished(s, marked))
  {
    var q := (if s.a == [] then s.r else s.a)[0];
    FreeRest(s);
    forall x ensures Covers([q], x) <==> Contains(q, x) { CoversOne(q, x); }
    hide Separate, Free, Covers, SweepOk;
    FinishStep(s, marked);
  }

  class NdksBoot {
    const freemem: array<Region>
    const reserved: array<Region>
    var resvCount: nat

    constructor ()
      ensures Valid() && fresh(freemem) && fresh(reserved) && resvCount == 0
      ensures Handed([])
    {
      freemem := new Region[MAX_NUM_FREEMEM_REG](_ => NOTHING);
      reserved := new Region[MAX_NUM_RESV_REG](_ => NOTHING);
      resvCount := 0;
    }

    predicate Sized()
      reads this
    {
      freemem.Length == MAX_NUM_FREEMEM_REG && reserved.Length == MAX_NUM_RESV_REG && freemem != reserved && resvCount < MAX_NUM_RESV_REG
    }

    function Reserved(): seq<Region>
      requires Sized()
      reads this, reserved
    {
      reserved[..resvCount]
    }

    /** The reserved regions are not empty, in ascending order, and do not touch. */
    ghost predicate Valid()
      reads this, reserved
    {
      Sized() && Separate(Reserved())
    }

    /** `merge_regions`. */
    method MergeRegions()
      requires Sized()
      modifies reserved, this`resvCount
      ensures Sized() && Merged(old(Reserved()), Reserved())
    {
      hide MergedTo, Merged;
      ghost var s0 := Reserved();
      var i := 1;
      MergeStart(s0);
      while i < resvCount
        invariant Sized() && 1 <= i && MergedTo(s0, Reserved(), i)
        decreases resvCount - i
      {
        if reserved[i - 1].end == reserved[i].start {
          MergeJoin(s0, Reserved(), i);
          Join(i);
        } else {
          MergeNext(s0, Reserved(), i);
          i := i + 1;
        }
      }
      MergeEnd(s0, Reserved(), i);
    }

    /** Joins region `i` to the one below. */
    method Join(i: nat)
      requires Sized() && 0 < i < resvCount
      modifies reserved, this`resvCount
      ensures Sized() && Reserved() == Joined(old(Reserved()), i) && resvCount == old(resvCount) - 1
    {
      ghost var s := Reserved();
      reserved[i - 1] := Region(reserved[i - 1].start, reserved[i].end);
      assert Reserved() == s[..i - 1] + [Region(s[i - 1].start, s[i].end)] + s[i..];
      CloseGap(i);
    }

    /** Moves everything above `i` down by one. */
    method CloseGap(i: nat)
      requires Sized() && i < resvCount
      modifies reserved, this`resvCount
      ensures Sized() && resvCount == old(resvCount) - 1
      ensures Reserved() == old(Reserved()[..i] + Reserved()[i + 1..])
    {
      ghost var s := Reserved();
      MoveDown(i);
      resvCount := resvCount - 1;
      Removed(s, i, Reserved());
    }

    method MoveDown(i: nat)
      requires Sized() && i < resvCount
      modifies reserved
      ensures forall k :: 0 <= k < i ==> reserved[k] == old(reserved[k])
      ensures forall k :: i <= k < resvCount - 1 ==> reserved[k] == old(reserved[k + 1])
    {
      var j := i + 1;
      while j < resvCount
        invariant i < j <= resvCount
        invariant forall k :: 0 <= k < i || j <= k < resvCount ==> reserved[k] == old(reserved[k])
        invariant forall k :: i <= k < j - 1 ==> reserved[k] == old(reserved[k + 1])
      {
        reserved[j - 1] := reserved[j];
        j := j + 1;
      }
    }

    /** Moves everything from `i` up by one and puts `r` there. */
    method OpenGap(i: nat, r: Region)
      requires Sized() && i <= resvCount && resvCount + 1 < MAX_NUM_RESV_REG
      modifies reserved, this`resvCount
      ensures Sized() && resvCount == old(resvCount) + 1
      ensures Reserved() == old(Reserved()[..i]) + [r] + old(Reserved()[i..])
    {
      ghost var s := Reserved();
      MoveUp(i);
      reserved[i] := r;
      resvCount := resvCount + 1;
      Inserted(s, i, r, Reserved());
    }

    method MoveUp(i: nat)
      requires Sized() && i <= resvCount && resvCount + 1 < MAX_NUM_RESV_REG
      modifies reserved
      ensures forall k :: 0 <= k < i ==> reserved[k] == old(reserved[k])
      ensures forall k :: i < k <= resvCount ==> reserved[k] == old(reserved[k - 1])
    {
      var j := resvCount;
      while j > i
        invariant i <= j <= resvCount
        invariant forall k :: 0 <= k <= j ==> reserved[k] == old(reserved[k])
        invariant forall k :: j < k <= resvCount ==> reserved[k] == old(reserved[k - 1])
      {
        reserved[j] := reserved[j - 1];
        j := j - 1;
      }
    }

    /** `reserve_region`. */
    method ReserveRegion(r: Region) returns (ok: bool)
      requires Sized() && r.start <= r.end
      modifies reserved, this`resvCount
      ensures Sized() && Reserves(old(Reserved()), r, Reserved(), ok)
    {
      hide Reserves, Separate, Avoids, AllBelow, Merged;
      ghost var s := Reserved();
      if r.start == r.end {
        ReservesNothing(s, r);
        return true;
      }
      var i := 0;
      NoneBelow(s, r);
      while i < resvCount
        invariant 0 <= i <= resvCount == |s| && Sized() && Reserved() == s
        invariant Separate(s) && Avoids(s, r) ==> AllBelow(s, i, r)
      {
        if reserved[i].start == r.end {
          reserved[i] := Region(r.start, reserved[i].end);
          assert Reserved() == s[i := Region(r.start, s[i].end)];
          MergeRegions();
          ReservesDown(s, i, r, Reserved());
          return true;
        }
        if reserved[i].end == r.start {
          reserved[i] := Region(reserved[i].start, r.end);
          assert Reserved() == s[i := Region(s[i].start, r.end)];
          MergeRegions();
          ReservesUp(s, i, r, Reserved());
          return true;
        }
        if reserved[i].start > r.end {
          ReservesInsert(s, i, r);
          if resvCount + 1 >= MAX_NUM_RESV_REG {
            return false;
          }
          OpenGap(i, r);
          assert Reserved() == s[..i] + [r] + s[i..];
          return true;
        }
        StillBelow(s, i, r);
        i := i + 1;
      }
      ReservesInsert(s, i, r);
      if i + 1 == MAX_NUM_RESV_REG {
        return false;
      }
      reserved[i] := r;
      resvCount := resvCount + 1;
      assert Reserved() == s[..i] + [r] + s[i..];
      return true;
    }

    /** The regions handed out are in the first slots of the table. */
    ghost predicate Handed(free: seq<Region>)
      reads this, freemem
    {
      && |free| <= freemem.Length && freemem[..|free|] == free
      && (forall i :: |free| <= i < freemem.Length ==> freemem[i].start == freemem[i].end)
    }

    /** `insert_region`, which also marks the region; it asserts that the table is not full. */
    method InsertRegion(r: Region, ghost free: seq<Region>)
      requires Sized() && Handed(free) && NoneEmpty(free) && |free| < MAX_NUM_FREEMEM_REG && r.start <= r.end
      modifies freemem, reserved, this`resvCount
      ensures Sized() && Handed(if IsEmpty(r) then free else free + [r])
      ensures old(Valid()) && old(Avoids(Reserved(), r)) ==> MarkedBy(old(Reserved()), r, Reserved())
    {
      hide Reserves, MarkedBy, Separate, Avoids;
      ghost var s := Reserved();
      if r.start == r.end {
        ReservesNothing(s, r);
        if Separate(s) && Avoids(s, r) { ReservesMarks(s, r, s, true); }
        return;
      }
      var i := 0;
      while i < freemem.Length
        invariant 0 <= i <= |free|
      {
        if freemem[i].start == freemem[i].end {
          assert free == freemem[..|free|];
          var ok := ReserveRegion(r);
          if Separate(s) && Avoids(s, r) { ReservesMarks(s, r, Reserved(), ok); }
          freemem[i] := r;
          assert freemem[..|free + [r]|] == free + [r];
          return;
        }
        assert i < |free|;
        i := i + 1;
      }
      assert false;
    }

    // ----- the sweep -----

    /** What holds in the middle of `rust_init_freemem`, at available region `i` and reserved
        region `j`; the marks are followed if `clean`. */
    ghost predicate Sweeping(s: Sweep, clean: bool, avail: array<Region>, n: nat, i: nat, resv: seq<Region>, j: nat)
      reads this, freemem, reserved, avail
    {
      && Sized() && Listed(s) && Handed(s.free) && NoneEmpty(s.free) && |s.allFree| <= MAX_NUM_FREEMEM_REG
      && s.marked == Reserved()
      && i <= n <= avail.Length && s.a == avail[i..n] && j <= |resv| && s.r == resv[j..]
      && avail != freemem && avail != reserved
      && (clean ==> Marking(s))
    }

    /** Moving on without handing out or marking anything. */
    method Pass(ghost s: Sweep, ghost clean: bool, avail: array<Region>, n: nat, i: nat, resv: seq<Region>, j: nat, i': nat, j': nat)
      returns (ghost s': Sweep)
      requires Sweeping(s, clean, avail, n, i, resv, j) && i < n && j < |resv| && Found(s.a, s.r) == []
      requires (j' == j + 1 && i' == i && s.r[0].start == s.r[0].end) || (j' == j && i' == i + 1)
      requires Rest(s.a, s.r) == (avail[i'..n], resv[j'..])
      ensures Sweeping(s', clean, avail, n, i', resv, j') && s' == Stepped(s, s'.marked)
    {
      hide Free, Marking, Listed, Covers, Rest, Found;
      StepListed(s, s.marked);
      if clean { QuietMarked(s); }
      s' := Stepped(s, s.marked);
    }

    /** Marking a reserved region that is done with. */
    method MarkReserved(ghost s: Sweep, ghost clean: bool, avail: array<Region>, n: nat, i: nat, start: nat, resv: seq<Region>, j: nat)
      returns (ghost s': Sweep)
      requires Sweeping(s, clean, avail, n, i, resv, j) && i < n && j < |resv| && Found(s.a, s.r) == []
      requires s.r[0].start != s.r[0].end && Rest(s.a, s.r) == ([Region(start, s.a[0].end)] + s.a[1..], s.r[1..])
      modifies avail, reserved, this`resvCount
      ensures Sweeping(s', clean, avail, n, i, resv, j + 1) && s' == Stepped(s, s'.marked)
    {
      FirstOrdered(s);
      assert News(s) == [s.r[0]];
      hide Free, Marking, Listed, Reserves, Covers, Rest, Found, Avoids, Separate;
      if clean { MarkingAvoids(s, s.r[0], false); }
      avail[i] := Region(start, avail[i].end);
      var ok := ReserveRegion(resv[j]);
      StepListed(s, Reserved());
      if clean {
        ReservesMarks(s.marked, s.r[0], Reserved(), ok);
        OneMarked(s, s.r[0], Reserved());
      }
      s' := Stepped(s, Reserved());
    }

    /** Handing out an available region up to `end`, which finishes it. */
    method HandOut(ghost s: Sweep, ghost clean: bool, avail: array<Region>, n: nat, i: nat, end: nat, resv: seq<Region>, j: nat)
      returns (ghost s': Sweep)
      requires Sweeping(s, clean, avail, n, i, resv, j) && i < n && j < |resv|
      requires s.a[0].start < end <= s.a[0].end && Found(s.a, s.r) == [Region(s.a[0].start, end)] && Rest(s.a, s.r) == (s.a[1..], s.r)
      modifies freemem, reserved, this`resvCount
      ensures Sweeping(s', clean, avail, n, i + 1, resv, j) && s' == Stepped(s, s'.marked)
    {
      ghost var f := Region(s.a[0].start, end);
      assert News(s) == [f];
      FreeSlot(s);
      FoundNoneEmpty(s);
      hide Free, Marking, MarkedBy, Listed, Covers, Rest, Found, Avoids, Separate, NoneEmpty;
      if clean { MarkingAvoids(s, f, true); }
      InsertRegion(Region(avail[i].start, end), s.free);
      StepListed(s, Reserved());
      if clean { OneMarked(s, f, Reserved()); }
      s' := Stepped(s, Reserved());
    }

    /** Handing out the part of an available region below a reserved one and going on above it. */
    method SplitAround(ghost s: Sweep, ghost clean: bool, avail: array<Region>, n: nat, i: nat, resv: seq<Region>, j: nat)
      returns (ghost s': Sweep)
      requires Sweeping(s, clean, avail, n, i, resv, j) && i < n && j < |resv|
      requires s.a[0].start < s.r[0].start && s.r[0].start < s.r[0].end < s.a[0].end
      modifies avail, freemem, reserved, this`resvCount
      ensures Sweeping(s', clean, avail, n, i, resv, j + 1) && s' == Stepped(s, s'.marked)
    {
      var r := resv[j];
      ghost var f := Region(s.a[0].start, r.start);
      assert Found(s.a, s.r) == [f];
      assert Rest(s.a, s.r) == ([Region(r.end, s.a[0].end)] + s.a[1..], s.r[1..]);
      FreeSlot(s);
      FoundNoneEmpty(s);
      hide Free, Marking, MarkedBy, Marks, Reserves, Listed, Covers, Rest, Found, Avoids, Separate, NoneEmpty;
      if clean {
        MarkingAvoids(s, f, true);
        MarkingAvoids(s, r, false);
      }
      InsertRegion(Region(avail[i].start, r.start), s.free);
      ghost var middle := Reserved();
      if clean { AvoidsMarkedBy(s.marked, f, middle, r); }
      avail[i] := Region(r.end, avail[i].end);
      var ok := ReserveRegion(r);
      StepListed(s, Reserved());
      if clean {
        ReservesMarks(middle, r, Reserved(), ok);
        BothMarked(s, f, middle, Reserved());
      }
      s' := Stepped(s, Reserved());
    }

    /** One lap of the first loop of `rust_init_freemem`. */
    method SweepOnce(ghost s: Sweep, ghost clean: bool, avail: array<Region>, n: nat, i: nat, resv: seq<Region>, j: nat)
      returns (i': nat, j': nat, ghost s': Sweep)
      requires Sweeping(s, clean, avail, n, i, resv, j) && i < n && j < |resv|
      modifies avail, freemem, reserved, this`resvCount
      ensures Sweeping(s', clean, avail, n, i', resv, j') && s.a != [] && s.r != [] && s' == Stepped(s, s'.marked)
      ensures (n - i') + (|resv| - j') < (n - i) + (|resv| - j)
    {
      var a, r := avail[i], resv[j];
      assert a == s.a[0] && r == s.r[0];
      FirstOrdered(s);
      hide Free, Listed, Marking, Handed, NoneEmpty, Sized;
      i', j' := i, j;
      if r.start == r.end {
        j' := j + 1;
        s' := Pass(s, clean, avail, n, i, resv, j, i', j');
      } else if a.start >= a.end {
        i' := i + 1;
        s' := Pass(s, clean, avail, n, i, resv, j, i', j');
      } else if r.end <= a.start {
        assert s.a == [Region(a.start, a.end)] + s.a[1..];
        s' := MarkReserved(s, clean, avail, n, i, a.start, resv, j);
        j' := j + 1;
      } else if r.start >= a.end {
        s' := HandOut(s, clean, avail, n, i, a.end, resv, j);
        i' := i + 1;
      } else if r.start <= a.start {
        s' := MarkReserved(s, clean, avail, n, i, Min(a.end, r.end), resv, j);
        j' := j + 1;
      } else if a.end > r.end {
        s' := SplitAround(s, clean, avail, n, i, resv, j);
        j' := j + 1;
      } else {
        s' := HandOut(s, clean, avail, n, i, r.start, resv, j);
        i' := i + 1;
      }
    }

    /** The second loop of `rust_init_freemem`: the rest of the reserved regions. */
    method MarkRest(ghost s: Sweep, ghost clean: bool, avail: array<Region>, n: nat, resv: seq<Region>, from: nat) returns (ghost s': Sweep)
      requires Sweeping(s, clean, avail, n, n, resv, from)
      modifies reserved, this`resvCount
      ensures Sweeping(s', clean, avail, n, n, resv, |resv|)
      ensures s' == s.(marked := s'.marked, r := s'.r)
    {
      hide Sweeping;
      var j := from;
      s' := s;
      while j < |resv|
        invariant Sweeping(s', clean, avail, n, n, resv, j)
        invariant s' == s.(marked := s'.marked, r := s'.r)
      {
        s' := MarkOne(s', clean, avail, n, resv, j);
        j := j + 1;
      }
      SweepingBounds(s', clean, avail, n, n, resv, j);
    }

    method MarkOne(ghost s: Sweep, ghost clean: bool, avail: array<Region>, n: nat, resv: seq<Region>, j: nat) returns (ghost s': Sweep)
      requires Sweeping(s, clean, avail, n, n, resv, j) && j < |resv|
      modifies reserved, this`resvCount
      ensures Sweeping(s', clean, avail, n, n, resv, j + 1)
      ensures s' == s.(marked := s'.marked, r := s'.r)
    {
      FirstOrdered(s);
      hide Free, Marking, Reserves, MarkedBy, Listed, Covers, Avoids, Separate;
      if resv[j].start < resv[j].end {
        if clean { MarkingAvoids(s, resv[j], false); }
        var ok := ReserveRegion(resv[j]);
        if clean { ReservesMarks(s.marked, resv[j], Reserved(), ok); }
      }
      FinishListed(s, Reserved());
      if clean { FinishMarked(s, Reserved()); }
      s' := Finished(s, Reserved());
    }

    /** The third loop: the rest of the available regions. */
    method HandOutRest(ghost s: Sweep, ghost clean: bool, avail: array<Region>, n: nat, resv: seq<Region>, from: nat) returns (ghost s': Sweep)
      requires Sweeping(s, clean, avail, n, from, resv, |resv|)
      modifies freemem, reserved, this`resvCount
      ensures Sweeping(s', clean, avail, n, n, resv, |resv|)
      ensures s' == s.(marked := s'.marked, free := s'.free, a := s'.a)
    {
      hide Sweeping;
      var i := from;
      s' := s;
      while i < n
        invariant Sweeping(s', clean, avail, n, i, resv, |resv|)
        invariant s' == s.(marked := s'.marked, free := s'.free, a := s'.a)
      {
        s' := HandOutOne(s', clean, avail, n, resv, i);
        i := i + 1;
      }
      SweepingBounds(s', clean, avail, n, i, resv, |resv|);
    }

    method HandOutOne(ghost s: Sweep, ghost clean: bool, avail: array<Region>, n: nat, resv: seq<Region>, i: nat) returns (ghost s': Sweep)
      requires Sweeping(s, clean, avail, n, i, resv, |resv|) && i < n
      modifies freemem, reserved, this`resvCount
      ensures Sweeping(s', clean, avail, n, i + 1, resv, |resv|)
      ensures s' == s.(marked := s'.marked, free := s'.free, a := s'.a)
    {
      SlotForRest(s);
      hide Free, Marking, MarkedBy, Listed, Covers, Avoids, Separate;
      if avail[i].start < avail[i].end {
        if clean { MarkingAvoids(s, avail[i], true); }
        InsertRegion(avail[i], s.free);
      } else {
        assert s.free + [] == s.free;
      }
      FinishListed(s, Reserved());
      if clean { FinishMarked(s, Reserved()); }
      s' := Finished(s, Reserved());
    }

    lemma SweepingBounds(s: Sweep, clean: bool, avail: array<Region>, n: nat, i: nat, resv: seq<Region>, j: nat)
      requires Sweeping(s, clean, avail, n, i, resv, j)
      ensures i <= n && j <= |resv|
    {
    }

    lemma SweepingLists(s: Sweep, clean: bool, avail: array<Region>, n: nat, i: nat, resv: seq<Region>, j: nat)
      requires Sweeping(s, clean, avail, n, i, resv, j) && i < n && j < |resv|
      ensures s.a != [] && s.r != []
    {
    }

    /** `rust_init_freemem` for regions in physical addresses, of which those above the kernel
        window (`top`) are cut off.  The order of the available regions is only logged; that the
        free regions fit the table is asserted. */
    method RustInitFreemem(available: seq<Region>, top: nat, resv: seq<Region>) returns (ok: bool)
      requires Sized() && |available| <= MAX_NUM_FREEMEM_REG
      requires Checked(available, resv) ==> |Free(Clipped(available, top), resv)| <= MAX_NUM_FREEMEM_REG
      modifies freemem, reserved, this`resvCount
      ensures Sized() && (ok <==> Checked(available, resv) && |Free(Clipped(available, top), resv)| < MAX_NUM_FREEMEM_REG)
      ensures if Checked(available, resv) then Handed(Free(Clipped(available, top), resv))
        else freemem[..] == old(freemem[..]) && Reserved() == old(Reserved())
      ensures Checked(available, resv) && CanSweep(old(Reserved()), available, top, resv) ==>
        Separate(Reserved()) && Swept(old(Reserved()), Clipped(available, top), resv, Reserved())
    {
      hide CanSweep, Swept, Free, Clipped, Separate;
      var okAvailable := CheckAvailableMemory(available);
      var okReserved := CheckReservedMemory(resv);
      if !okAvailable || !okReserved {
        return false;
      }
      ClearFreemem();
      var avail := Clip(available, top);
      ok := InitSweep(avail, resv, available, top);
    }

    /** The sweep of `rust_init_freemem`, and its check that the table has room to spare. */
    method InitSweep(avail: array<Region>, resv: seq<Region>, available: seq<Region>, ghost top: nat) returns (ok: bool)
      requires Sized() && Handed([]) && |available| <= avail.Length && avail != freemem && avail != reserved && Ascending(resv)
      requires avail[..|available|] == Clipped(available, top) && |Free(Clipped(available, top), resv)| <= MAX_NUM_FREEMEM_REG
      modifies avail, freemem, reserved, this`resvCount
      ensures Sized() && (ok <==> |Free(Clipped(available, top), resv)| < MAX_NUM_FREEMEM_REG)
      ensures Handed(Free(Clipped(available, top), resv))
      ensures CanSweep(old(Reserved()), available, top, resv) ==>
        Separate(Reserved()) && Swept(old(Reserved()), Clipped(available, top), resv, Reserved())
    {
      ghost var before, a0 := Reserved(), Clipped(available, top);
      ghost var clean := CanSweep(before, available, top, resv);
      ghost var s := Sweep(before, resv, Free(a0, resv), before, [], a0, resv, HasRoom(before, a0, resv));
      SweepBegins(s, clean, available, top);
      hide Free, Listed, Marking, CanSweep, HasRoom, Clipped, Ascending, Separate, Swept;
      s := SweepAll(s, clean, avail, |available|, resv);
      EndFacts(s);
      if clean { SweepEnds(s, available, top); }
      LastSlot(s.free);
      return freemem[MAX_NUM_FREEMEM_REG - 1].start == freemem[MAX_NUM_FREEMEM_REG - 1].end;
    }

    /** The loops of `rust_init_freemem`; of the last two at most one has anything to do. */
    method SweepAll(ghost s: Sweep, ghost clean: bool, avail: array<Region>, n: nat, resv: seq<Region>) returns (ghost s': Sweep)
      requires Sweeping(s, clean, avail, n, 0, resv, 0)
      modifies avail, freemem, reserved, this`resvCount
      ensures Sweeping(s', clean, avail, n, n, resv, |resv|)
      ensures s' == s.(marked := s'.marked, free := s'.free, a := s'.a, r := s'.r)
    {
      hide Sweeping;
      var i: nat, j: nat := 0, 0;
      s' := s;
      SweepingBounds(s, clean, avail, n, i, resv, j);
      while i < n && j < |resv|
        invariant i <= n && j <= |resv| && Sweeping(s', clean, avail, n, i, resv, j)
        invariant s' == s.(marked := s'.marked, free := s'.free, a := s'.a, r := s'.r)
        decreases (n - i) + (|resv| - j)
      {
        SweepingLists(s', clean, avail, n, i, resv, j);
        i, j, s' := SweepOnce(s', clean, avail, n, i, resv, j);
        SweepingBounds(s', clean, avail, n, i, resv, j);
      }
      if i == n {
        s' := MarkRest(s', clean, avail, n, resv, j);
      } else {
        s' := HandOutRest(s', clean, avail, n, resv, i);
      }
    }

    lemma LastSlot(free: seq<Region>)
      requires Sized() && Handed(free) && NoneEmpty(free)
      ensures freemem[MAX_NUM_FREEMEM_REG - 1].start == freemem[MAX_NUM_FREEMEM_REG - 1].end <==> |free| < MAX_NUM_FREEMEM_REG
    {
      assert freemem[..|free|] == free;
    }

    method ClearFreemem()
      requires Sized()
      modifies freemem
      ensures Handed([])
    {
      for i := 0 to freemem.Length
        invariant forall k :: 0 <= k < i ==> freemem[k] == NOTHING
      {
        freemem[i] := NOTHING;
      }
    }
  }

  /** The regions of LeakExample: the leaked region overlaps the reserved one, and the list is no
      longer in order. */
  method ReserveOverlapping() returns (boot: NdksBoot)
    ensures boot.Sized() && !Separate(boot.Reserved())
  {
    boot := new NdksBoot();
    var ok := boot.ReserveRegion(Region(0, 25));
    assert Covers(boot.Reserved(), 20);
    ghost var i :| 0 <= i < boot.resvCount && Contains(boot.Reserved()[i], 20);
    assert Overlap(boot.Reserved()[i], Region(20, 30));
    ok := boot.ReserveRegion(Region(20, 30));
  }

  lemma FoundNoneEmpty(s: Sweep)
    requires NoneEmpty(s.free) && s.a != [] && s.r != []
    ensures NoneEmpty(s.free + Found(s.a, s.r))
  {
  }

  /** There is a slot for the region found. */
  lemma FreeSlot(s: Sweep)
    requires Listed(s) && s.a != [] && s.r != [] && |s.allFree| <= MAX_NUM_FREEMEM_REG && Found(s.a, s.r) != []
    ensures |s.free| < MAX_NUM_FREEMEM_REG
  {
    FreeStep(s.a, s.r);
    hide Free, Found, Rest;
  }

  lemma SlotForRest(s: Sweep)
    requires Listed(s) && s.a != [] && s.r == [] && |s.allFree| <= MAX_NUM_FREEMEM_REG
    ensures s.a[0].start < s.a[0].end ==> |s.free| < MAX_NUM_FREEMEM_REG
  {
    FreeRest(s);
    hide Free;
  }

  lemma FirstOrdered(s: Sweep)
    requires Listed(s) && s.r != []
    ensures s.r[0].start <= s.r[0].end
  {
  }

  lemma MarkingAvoids(s: Sweep, q: Region, inA: bool)
    requires Marking(s) && (if inA then s.a else s.r) != []
    requires var c := (if inA then s.a else s.r)[0]; c.start <= q.start && q.end <= c.end
    ensures Separate(s.marked) && Avoids(s.marked, q)
  {
    NotMarked(s, q, 0, inA);
  }

  lemma AvoidsMarkedBy(s: seq<Region>, f: Region, t: seq<Region>, q: Region)
    requires Avoids(s, q) && MarkedBy(s, f, t) && f.end <= q.start
    ensures Separate(t) && Avoids(t, q)
  {
    AvoidsMarks(s, f, t, |s| + 1 < MAX_NUM_RESV_REG, q);
  }

  lemma {:induction false} SweepBegins(s: Sweep, clean: bool, available: seq<Region>, top: nat)
    requires s.a == Clipped(available, top) && Ascending(s.r) && s.allReserved == s.r && s.allFree == Free(s.a, s.r)
    requires s.marked == s.before && s.free == [] && s.room == HasRoom(s.before, s.a, s.r)
    requires clean ==> CanSweep(s.before, available, top, s.r)
    ensures Listed(s) && (clean ==> Marking(s))
  {
    assert s.free + Free(s.a, s.r) == s.allFree;
    hide Free, Ascending, Separate, Covers, Leaks, AllAvoid, Disjoint;
    if clean {
      ClippedDisjoint(available, top);
      SweepStart(s);
    }
  }

  lemma {:induction false} SweepEnds(s: Sweep, available: seq<Region>, top: nat)
    requires Marking(s) && s.a == [] && s.r == [] && CanSweep(s.before, available, top, s.allReserved) && Ascending(s.allReserved)
    requires var a0 := Clipped(available, top); s.allFree == Free(a0, s.allReserved) && s.room == HasRoom(s.before, a0, s.allReserved)
    ensures Separate(s.marked) && Swept(s.before, Clipped(available, top), s.allReserved, s.marked)
  {
    hide Swept, SweepOk, Separate, Ascending, Disjoint, AllAvoid;
    SweepEnd(s, Clipped(available, top));
  }

  lemma NoneBelow(s: seq<Region>, r: Region)
    ensures AllBelow(s, 0, r)
  {
  }

  /** No memory is handed out twice: what is in a device block, made from the marked regions at
      `offset`, is neither available nor reserved, so in no free region either. */
  lemma {:induction false} NothingTwice(before: seq<Region>, a: seq<Region>, r: seq<Region>, marked: seq<Region>, offset: nat, x: nat)
    requires Separate(marked) && HasRoom(before, a, r) && Swept(before, a, r, marked)
    requires Untyped.InGap(Untyped.Gaps(marked, 0), offset, x)
    ensures var p := x - offset; p >= 0 && !Covers(before, p) && !Covers(r, p) && !Covers(a, p) && !Covers(Free(a, r), p)
  {
    Untyped.DeviceExact(marked, offset, x);
    assert Untyped.GrainStart(x) <= x < Untyped.GrainStart(x) + Untyped.GRAIN;
    assert !Covers(marked, x - offset);
  }
}
