/** Boot: what holds between two steps of the sweep that computes the free memory and marks
    both free and reserved memory as in use. */
module BootSweep {
  import opened FreeMemory
  import opened Regions

  ghost predicate Disjoint(s: seq<Region>) { forall i, j :: 0 <= i < j < |s| ==> !Overlap(s[i], s[j]) }

  /** `t` covers nothing but what `s` and `extra` cover, and all of that if there was `room`. */
  ghost predicate Marks(s: seq<Region>, extra: seq<Region>, t: seq<Region>, room: bool) {
    forall x ::
      && (Covers(t, x) ==> Covers(s, x) || Covers(extra, x))
      && (room && (Covers(s, x) || Covers(extra, x)) ==> Covers(t, x))
  }

  /** The lists of a sweep over available regions and `allReserved`, of which `a` and `r` are still
      to be done: `free` of `allFree` has been handed out, and `marked` is what was marked `before`
      and since; with `room`, all that has been dealt with is marked. */
  datatype Sweep = Sweep(
    before: seq<Region>, allReserved: seq<Region>, allFree: seq<Region>,
    marked: seq<Region>, free: seq<Region>, a: seq<Region>, r: seq<Region>, room: bool)

  ghost predicate Listed(s: Sweep) {
    && |s.r| <= |s.allReserved| && s.r == s.allReserved[|s.allReserved| - |s.r|..]
    && Ascending(s.r) && s.free + Free(s.a, s.r) == s.allFree
  }

  function Done(s: Sweep): seq<Region>
    requires |s.r| <= |s.allReserved|
  {
    s.allReserved[..|s.allReserved| - |s.r|]
  }

  ghost predicate Dealt(s: Sweep, x: int)
    requires |s.r| <= |s.allReserved|
  {
    Covers(s.before, x) || Covers(Done(s), x) || Covers(s.free, x)
  }

  /** An address that has been dealt with is not in a region still to be done. */
  ghost predicate AddressOk(s: Sweep, x: int)
    requires |s.r| <= |s.allReserved|
  {
    && (Dealt(s, x) ==> !Covers(s.a, x) && !Covers(s.r, x))
    && (Covers(s.marked, x) ==> Dealt(s, x))
    && (s.room && Dealt(s, x) ==> Covers(s.marked, x))
  }

  ghost predicate SweepOk(s: Sweep) {
    && Listed(s) && Disjoint(s.a) && !Leaks(s.a, s.r)
    && (forall x {:trigger AddressOk(s, x)} :: AddressOk(s, x))
  }

  /** Regions with no address in common do not overlap. */
  lemma AvoidsByCover(s: seq<Region>, q: Region)
    requires forall x :: Contains(q, x) ==> !Covers(s, x)
    ensures Avoids(s, q)
  {
    forall i | 0 <= i < |s| ensures !Overlap(s[i], q) {
      var x := if s[i].start < q.start then q.start else s[i].start;
      assert Overlap(s[i], q) ==> Contains(q, x) && Contains(s[i], x);
    }
  }

  /** What lies within a region still to be done is not marked. */
  lemma NotMarked(s: Sweep, q: Region, i: nat, inA: bool)
    requires SweepOk(s) && i < |if inA then s.a else s.r|
    requires var c := (if inA then s.a else s.r)[i]; c.start <= q.start && q.end <= c.end
    ensures Avoids(s.marked, q)
  {
    var list := if inA then s.a else s.r;
    forall x | Contains(q, x) ensures !Covers(s.marked, x) {
      assert Contains(list[i], x) && AddressOk(s, x);
    }
    AvoidsByCover(s.marked, q);
  }

  // ----- a step of the first loop -----

  ghost function Stepped(s: Sweep, marked: seq<Region>): Sweep
    requires s.a != [] && s.r != []
  {
    s.(marked := marked, free := s.free + Found(s.a, s.r), a := Rest(s.a, s.r).0, r := Rest(s.a, s.r).1)
  }

  /** The found free region, and the reserved region that is done with. */
  ghost function News(s: Sweep): seq<Region>
    requires s.a != [] && s.r != []
  {
    Found(s.a, s.r) + (if |Rest(s.a, s.r).1| < |s.r| then [s.r[0]] else [])
  }

  lemma StepListed(s: Sweep, marked: seq<Region>)
    requires Listed(s) && s.a != [] && s.r != []
    ensures Listed(Stepped(s, marked))
    ensures Free(s.a, s.r) == Found(s.a, s.r) + Free(Rest(s.a, s.r).0, Rest(s.a, s.r).1)
  {
    var s' := Stepped(s, marked);
    FreeStep(s.a, s.r);
    RestAscending(s.a, s.r);
    RestOfReserved(s.a, s.r);
    hide Free, Rest, Found, Ascending;
    assert s'.free + Free(s'.a, s'.r) == s.free + (Found(s.a, s.r) + Free(s'.a, s'.r));
  }

  lemma RestOfReserved(a: seq<Region>, r: seq<Region>)
    requires a != [] && r != []
    ensures Rest(a, r).1 == r || Rest(a, r).1 == r[1..]
  {
  }

  lemma RestDisjoint(a: seq<Region>, r: seq<Region>)
    requires a != [] && r != [] && Disjoint(a)
    ensures Disjoint(Rest(a, r).0)
  {
  }

  /** What the step deals with is not in a region still to be done. */
  lemma NewsApart(a: seq<Region>, r: seq<Region>, x: int)
    requires a != [] && r != [] && Disjoint(a) && Ascending(r) && !LeaksNow(a, r)
    ensures var (a', r') := Rest(a, r);
      Covers(Found(a, r), x) || (|r'| < |r| && Contains(r[0], x)) ==> !Covers(a', x) && !Covers(r', x)
  {
    var (a', r') := Rest(a, r);
    CoversHead(a, x);
    CoversHead(r, x);
    CoversNone(x);
    if x < r[0].end { BelowTail(r, x); }
    if a' != [] { CoversHead(a', x); }
    if Found(a, r) != [] { CoversOne(Found(a, r)[0], x); }
    StepCover(a, r, x);
    OverlapLater(a, r[0], x);
    OverlapLater(a, a[0], x);
  }

  lemma NewsCover(s: Sweep, marked: seq<Region>, x: int)
    requires Listed(s) && s.a != [] && s.r != []
    ensures Covers(News(s), x) <==> Covers(Found(s.a, s.r), x) || (|Rest(s.a, s.r).1| < |s.r| && Contains(s.r[0], x))
    ensures |Stepped(s, marked).r| <= |s.allReserved| && (Dealt(Stepped(s, marked), x) <==> Dealt(s, x) || Covers(News(s), x))
  {
    hide Free, Rest, Found, Ascending, Covers;
    var s', dropped := Stepped(s, marked), if |Rest(s.a, s.r).1| < |s.r| then [s.r[0]] else [];
    StepListed(s, marked);
    RestOfReserved(s.a, s.r);
    CoversConcat(Found(s.a, s.r), dropped, x);
    CoversOne(s.r[0], x);
    CoversNone(x);
    CoversConcat(s.free, Found(s.a, s.r), x);
    assert Done(s') == Done(s) + dropped;
    CoversConcat(Done(s), dropped, x);
  }

  lemma SweepStep(s: Sweep, marked: seq<Region>)
    requires SweepOk(s) && s.a != [] && s.r != [] && Marks(s.marked, News(s), marked, s.room)
    ensures SweepOk(Stepped(s, marked))
  {
    var s' := Stepped(s, marked);
    StepListed(s, marked);
    LeaksNowOrLater(s.a, s.r);
    RestDisjoint(s.a, s.r);
    RestOfReserved(s.a, s.r);
    hide Free, Rest, Found, News, Ascending, Disjoint, Covers, Leaks, LeaksNow, Dealt;
    forall x ensures AddressOk(s', x) {
      assert AddressOk(s, x);
      NewsCover(s, marked, x);
      NewsApart(s.a, s.r, x);
      StepSafe(s.a, s.r, x);
      CoversHead(s.r, x);
    }
  }

  // ----- the kinds of steps -----

  lemma QuietStep(s: Sweep)
    requires SweepOk(s) && s.a != [] && s.r != [] && Found(s.a, s.r) == []
    requires |Rest(s.a, s.r).1| < |s.r| ==> IsEmpty(s.r[0])
    ensures SweepOk(Stepped(s, s.marked))
  {
    forall x ensures !Covers(News(s), x) { NewsCover(s, s.marked, x); CoversNone(x); }
    SweepStep(s, s.marked);
  }

  lemma AvoidsMarks(s: seq<Region>, f: Region, t: seq<Region>, room: bool, q: Region)
    requires Avoids(s, q) && Marks(s, [f], t, room) && f.end <= q.start
    ensures Avoids(t, q)
  {
    forall x | Contains(q, x) ensures !Covers(t, x) {
      CoversOne(f, x);
      assert forall i :: 0 <= i < |s| && Contains(s[i], x) ==> Overlap(s[i], q);
    }
    AvoidsByCover(t, q);
  }

  // ----- a step of the other loops -----

  /** When one list is done, the rest of the other is dealt with region by region. */
  ghost function Finished(s: Sweep, marked: seq<Region>): Sweep
    requires (s.a == []) != (s.r == [])
  {
    if s.a == [] then s.(marked := marked, r := s.r[1..])
    else s.(marked := marked, free := s.free + (if s.a[0].start < s.a[0].end then [s.a[0]] else []), a := s.a[1..])
  }

  /** What is free of the rest. */
  lemma FreeRest(s: Sweep)
    requires (s.a == []) != (s.r == [])
    ensures s.a == [] ==> Free([], s.r) == Free([], s.r[1..])
    ensures s.r == [] ==> Free(s.a, []) == (if s.a[0].start < s.a[0].end then [s.a[0]] else []) + Free(s.a[1..], [])
  {
  }

  lemma TailAscending(r: seq<Region>)
    requires Ascending(r) && r != []
    ensures Ascending(r[1..])
  {
  }

  lemma FinishListed(s: Sweep, marked: seq<Region>)
    requires Listed(s) && (s.a == []) != (s.r == [])
    ensures Listed(Finished(s, marked))
  {
    FreeRest(s);
    hide Free, Ascending;
    if s.a == [] {
      TailAscending(s.r);
      assert s.r[1..] == s.allReserved[|s.allReserved| - |s.r[1..]|..];
    } else {
      var f := if s.a[0].start < s.a[0].end then [s.a[0]] else [];
      assert s.free + f + Free(s.a[1..], []) == s.free + (f + Free(s.a[1..], []));
    }
  }

  lemma NextToFinish(s: Sweep, marked: seq<Region>, x: int)
    requires Listed(s) && (s.a == []) != (s.r == [])
    ensures var s', list := Finished(s, marked), if s.a == [] then s.r else s.a;
      && |s'.r| <= |s.allReserved| && (Dealt(s', x) <==> Dealt(s, x) || Contains(list[0], x))
      && (Covers(list, x) <==> Contains(list[0], x) || Covers(list[1..], x))
  {
    FinishListed(s, marked);
    hide Free, Ascending, Covers;
    var s' := Finished(s, marked);
    CoversHead(if s.a == [] then s.r else s.a, x);
    if s.a == [] {
      assert Done(s') == Done(s) + [s.r[0]];
      CoversConcat(Done(s), [s.r[0]], x);
      CoversOne(s.r[0], x);
    } else {
      var f := if s.a[0].start < s.a[0].end then [s.a[0]] else [];
      assert s'.free == s.free + f;
      CoversConcat(s.free, f, x);
      CoversOne(s.a[0], x);
      CoversNone(x);
    }
  }

  /** The region dealt with is not in the rest of the list. */
  lemma RestApart(s: Sweep, x: int)
    requires SweepOk(s) && (s.a == []) != (s.r == [])
    ensures var list := if s.a == [] then s.r else s.a; Contains(list[0], x) ==> !Covers(list[1..], x)
  {
    if s.a == [] {
      if x < s.r[0].end { BelowTail(s.r, x); }
    } else {
      OverlapLater(s.a, s.a[0], x);
    }
  }

  lemma FinishStep(s: Sweep, marked: seq<Region>)
    requires SweepOk(s) && (s.a == []) != (s.r == [])
    requires Marks(s.marked, [(if s.a == [] then s.r else s.a)[0]], marked, s.room)
    ensures SweepOk(Finished(s, marked))
  {
    var s' := Finished(s, marked);
    FinishListed(s, marked);
    assert Disjoint(s'.a) && !Leaks(s'.a, s'.r);
    hide Free, Ascending, Disjoint, Covers, Leaks, Dealt;
    forall x ensures AddressOk(s', x) {
      assert AddressOk(s, x);
      NextToFinish(s, marked, x);
      RestApart(s, x);
      CoversOne((if s.a == [] then s.r else s.a)[0], x);
      CoversNone(x);
    }
  }
}
