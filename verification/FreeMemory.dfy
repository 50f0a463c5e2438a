/** Boot: the free memory is the available memory without the reserved memory.  One sweep
    over both lists computes it, and is right unless a reserved region leaks. */
module FreeMemory {
  import opened Regions

  /** The regions `rust_init_freemem` hands out for the available regions `a` and the reserved
      regions `r`, in this order; the first available region may have been trimmed already. */
  function Free(a: seq<Region>, r: seq<Region>): seq<Region>
    decreases |a| + |r|
  {
    if a == [] then []
    else if r == [] then (if a[0].start < a[0].end then [a[0]] else []) + Free(a[1..], [])
    else if r[0].start == r[0].end then Free(a, r[1..])
    else if a[0].start >= a[0].end then Free(a[1..], r)
    else if r[0].end <= a[0].start then Free(a, r[1..])
    else if r[0].start >= a[0].end then [a[0]] + Free(a[1..], r)
    else if r[0].start <= a[0].start then Free([Region(Min(a[0].end, r[0].end), a[0].end)] + a[1..], r[1..])
    else
      [Region(a[0].start, r[0].start)]
      + (if a[0].end > r[0].end then Free([Region(r[0].end, a[0].end)] + a[1..], r[1..]) else Free(a[1..], r))
  }

  /** The sweep is done with the reserved region `q` when it is through with the available region
      `c`: `q` is below it, ends inside it, or the address just below `q` is not a free one of it. */
  ghost predicate Passes(r: seq<Region>, q: Region, c: Region) {
    && !IsEmpty(c)
    && (q.end <= c.start || (Overlap(q, c) && (q.end < c.end || !(Contains(c, q.start - 1) && !Covers(r, q.start - 1)))))
  }

  /** A reserved region that the sweep is done with meets a later available region. */
  ghost predicate LeakAt(a: seq<Region>, r: seq<Region>, k: nat, i: nat, j: nat) {
    k < |r| && i < j < |a| && Overlap(r[k], a[j]) && Passes(r, r[k], a[i])
  }

  ghost predicate Leaks(a: seq<Region>, r: seq<Region>) { exists k: nat, i: nat, j: nat :: LeakAt(a, r, k, i, j) }

  ghost predicate Exact(a: seq<Region>, r: seq<Region>) {
    forall x :: Covers(Free(a, r), x) <==> Covers(a, x) && !Covers(r, x)
  }

  // ----- one step of the sweep -----

  /** What a step leaves to be done. */
  function Rest(a: seq<Region>, r: seq<Region>): (seq<Region>, seq<Region>)
    requires a != [] && r != []
  {
    if r[0].start == r[0].end then (a, r[1..])
    else if a[0].start >= a[0].end then (a[1..], r)
    else if r[0].end <= a[0].start then (a, r[1..])
    else if r[0].start >= a[0].end then (a[1..], r)
    else if r[0].start <= a[0].start then ([Region(Min(a[0].end, r[0].end), a[0].end)] + a[1..], r[1..])
    else if a[0].end > r[0].end then ([Region(r[0].end, a[0].end)] + a[1..], r[1..])
    else (a[1..], r)
  }

  /** What a step hands out. */
  function Found(a: seq<Region>, r: seq<Region>): seq<Region>
    requires a != [] && r != []
  {
    if r[0].start == r[0].end || a[0].start >= a[0].end || r[0].end <= a[0].start then []
    else if r[0].start >= a[0].end then [a[0]]
    else if r[0].start <= a[0].start then []
    else [Region(a[0].start, r[0].start)]
  }

  lemma {:induction false} FreeStep(a: seq<Region>, r: seq<Region>)
    requires a != [] && r != []
    ensures Free(a, r) == Found(a, r) + Free(Rest(a, r).0, Rest(a, r).1)
    ensures |Rest(a, r).0| + |Rest(a, r).1| < |a| + |r|
  {
  }

  /** Whether the step drops a reserved region that meets a later available one. */
  ghost predicate LeaksNow(a: seq<Region>, r: seq<Region>)
    requires a != [] && r != []
  {
    |Rest(a, r).1| < |r| && exists j :: 0 < j < |a| && Overlap(r[0], a[j])
  }

  lemma RestAscending(a: seq<Region>, r: seq<Region>)
    requires a != [] && r != [] && Ascending(r)
    ensures Ascending(Rest(a, r).1)
  {
  }

  lemma CoversHead(s: seq<Region>, x: int)
    requires s != []
    ensures Covers(s, x) <==> Contains(s[0], x) || Covers(s[1..], x)
  {
    assert s == [s[0]] + s[1..];
    CoversConcat([s[0]], s[1..], x);
    CoversOne(s[0], x);
  }

  /** In an ascending list nothing after the first region is below its end. */
  lemma BelowTail(s: seq<Region>, x: int)
    requires s != [] && Ascending(s) && x < s[0].end
    ensures !Covers(s[1..], x)
  {
  }

  lemma CoversNone(x: int)
    ensures !Covers([], x)
  {
  }

  /** If it does not leak, a step hands out what it should, and leaves what it should. */
  lemma StepCover(a: seq<Region>, r: seq<Region>, x: int)
    requires a != [] && r != [] && Ascending(r) && !LeaksNow(a, r)
    ensures Covers(a, x) && !Covers(r, x) <==>
      Covers(Found(a, r), x) || (Covers(Rest(a, r).0, x) && !Covers(Rest(a, r).1, x))
  {
    CoversHead(a, x);
    CoversHead(r, x);
    CoversNone(x);
    if x < r[0].end { BelowTail(r, x); }
    if Rest(a, r).0 != [] { CoversHead(Rest(a, r).0, x); }
    if Found(a, r) != [] { CoversOne(Found(a, r)[0], x); }
    OverlapLater(a, r[0], x);
  }

  lemma OverlapLater(a: seq<Region>, q: Region, x: int)
    requires a != []
    ensures Contains(q, x) && Covers(a[1..], x) ==> exists j :: 0 < j < |a| && Overlap(q, a[j])
  {
    if Contains(q, x) && Covers(a[1..], x) {
      var j :| 0 <= j < |a[1..]| && Contains(a[1..][j], x);
      assert Overlap(q, a[j + 1]);
    }
  }

  // ----- whole sweeps -----

  /** Whether it leaks or not, a step drops only reserved addresses. */
  lemma StepSafe(a: seq<Region>, r: seq<Region>, x: int)
    requires a != [] && r != [] && Ascending(r)
    ensures Covers(a, x) && !Covers(r, x) ==> Covers(Found(a, r), x) || (Covers(Rest(a, r).0, x) && !Covers(Rest(a, r).1, x))
    ensures Covers(Found(a, r), x) || Covers(Rest(a, r).0, x) ==> Covers(a, x)
  {
    CoversHead(a, x);
    CoversHead(r, x);
    CoversNone(x);
    if Rest(a, r).0 != [] { CoversHead(Rest(a, r).0, x); }
    if Found(a, r) != [] { CoversOne(Found(a, r)[0], x); }
  }

  /** With nothing reserved, everything is free. */
  lemma {:induction false} NothingReserved(a: seq<Region>, x: int)
    ensures Covers(Free(a, []), x) <==> Covers(a, x)
    decreases |a|
  {
    if a != [] {
      CoversHead(a, x);
      NothingReserved(a[1..], x);
      CoversOne(a[0], x);
      CoversNone(x);
      CoversConcat(if a[0].start < a[0].end then [a[0]] else [], Free(a[1..], []), x);
    }
  }

  /** No unreserved address is lost, and no other is handed out than available ones. */
  lemma {:induction false} FreeIsSafe(a: seq<Region>, r: seq<Region>, x: int)
    requires Ascending(r)
    ensures Covers(a, x) && !Covers(r, x) ==> Covers(Free(a, r), x)
    ensures Covers(Free(a, r), x) ==> Covers(a, x)
    decreases |a| + |r|
  {
    if a == [] {
      CoversNone(x);
    } else if r == [] {
      NothingReserved(a, x);
    } else {
      var (a', r') := Rest(a, r);
      FreeStep(a, r);
      RestAscending(a, r);
      StepSafe(a, r, x);
      FreeIsSafe(a', r', x);
      CoversConcat(Found(a, r), Free(a', r'), x);
    }
  }

  lemma {:induction false} NoLeakIsExact(a: seq<Region>, r: seq<Region>, x: int)
    requires Ascending(r) && !Leaks(a, r)
    ensures Covers(Free(a, r), x) <==> Covers(a, x) && !Covers(r, x)
    decreases |a| + |r|
  {
    if a == [] {
      CoversNone(x);
    } else if r == [] {
      NothingReserved(a, x);
      CoversNone(x);
    } else {
      var (a', r') := Rest(a, r);
      FreeStep(a, r);
      RestAscending(a, r);
      LeaksNowOrLater(a, r);
      StepCover(a, r, x);
      NoLeakIsExact(a', r', x);
      CoversConcat(Found(a, r), Free(a', r'), x);
    }
  }

  /** A leak hands out a reserved address. */
  lemma {:induction false} LeakIsWrong(a: seq<Region>, r: seq<Region>) returns (x: int)
    requires Ascending(r) && Leaks(a, r)
    ensures Covers(Free(a, r), x) && Covers(r, x)
    decreases |a| + |r|
  {
    var (a', r') := Rest(a, r);
    FreeStep(a, r);
    RestAscending(a, r);
    LeaksNowOrLater(a, r);
    if LeaksNow(a, r) {
      var j :| 0 < j < |a| && Overlap(r[0], a[j]);
      x := if r[0].start < a[j].start then a[j].start else r[0].start;
      assert Contains(r[0], x) && a'[j] == a[j] && Contains(a'[j], x);
      BelowTail(r, x);
      FreeIsSafe(a', r', x);
    } else {
      x := LeakIsWrong(a', r');
      CoversHead(r, x);
    }
    CoversConcat(Found(a, r), Free(a', r'), x);
  }

  /** The free memory is exact if and only if no reserved region leaks, in whatever order the
      available regions are: that is not checked. */
  lemma ExactIff(a: seq<Region>, r: seq<Region>)
    requires Ascending(r)
    ensures Exact(a, r) <==> !Leaks(a, r)
  {
    if Leaks(a, r) {
      var x := LeakIsWrong(a, r);
    } else {
      forall x ensures Covers(Free(a, r), x) <==> Covers(a, x) && !Covers(r, x) {
        NoLeakIsExact(a, r, x);
      }
    }
  }

  /** A reserved region meets two available regions, and the address just below it is not a free
      address of the first of them. */
  ghost predicate Straddles(a: seq<Region>, r: seq<Region>, k: nat, i: nat, j: nat) {
    && k < |r| && i < j < |a| && Overlap(r[k], a[i]) && Overlap(r[k], a[j])
    && !(Contains(a[i], r[k].start - 1) && !Covers(r, r[k].start - 1))
  }

  /** In ascending order, which is logged but not enforced, only such a region leaks. */
  lemma AscendingLeak(a: seq<Region>, r: seq<Region>, k: nat, i: nat, j: nat)
    requires Ascending(a) && Ascending(r)
    ensures LeakAt(a, r, k, i, j) <==> Straddles(a, r, k, i, j)
  {
  }

  /** Two available regions in descending order: the reserved part of the second is handed out. */
  lemma UnorderedExample()
    ensures var a, r := [Region(20, 30), Region(0, 10)], [Region(5, 7)];
      NoneEmpty(a) && Ascending(r) && Free(a, r) == a && !Exact(a, r)
  {
    var a, r := [Region(20, 30), Region(0, 10)], [Region(5, 7)];
    assert LeakAt(a, r, 0, 0, 1);
    ExactIff(a, r);
    assert r[1..] == [] && a[1..] == [Region(0, 10)] && a[1..][1..] == [];
    assert Free(a[1..], []) == [Region(0, 10)];
    assert Free(a, []) == [Region(20, 30)] + [Region(0, 10)];
  }

  /** A reserved region from the start of the first of two available regions into the second:
      its part of the second is handed out. */
  lemma LeakExample()
    ensures var a, r := [Region(0, 10), Region(20, 30)], [Region(0, 25)];
      Ascending(a) && Ascending(r) && Free(a, r) == [Region(20, 30)] && !Exact(a, r)
  {
    var a, r := [Region(0, 10), Region(20, 30)], [Region(0, 25)];
    assert LeakAt(a, r, 0, 0, 1);
    ExactIff(a, r);
    var a' := [Region(10, 10), Region(20, 30)];
    assert [Region(Min(10, 25), 10)] + a[1..] == a' && r[1..] == [];
    assert a'[1..] == [Region(20, 30)] && a'[1..][1..] == [];
    assert Free(a'[1..], []) == [Region(20, 30)];
    assert Free(a', []) == [] + [Region(20, 30)];
  }

  lemma StepBound(a: seq<Region>, r: seq<Region>)
    requires a != [] && r != [] && Ascending(a) && Ascending(r)
    ensures var f, a' := Found(a, r), Rest(a, r).0;
      && |f| <= 1 && (f != [] ==> a[0].start <= f[0].start < f[0].end)
      && (a' != [] ==> a[0].start <= a'[0].start && (f != [] ==> f[0].end <= a'[0].start))
  {
  }

  lemma RestAvailable(a: seq<Region>, r: seq<Region>)
    requires a != [] && r != [] && Ascending(a) && Ascending(r)
    ensures Ascending(Rest(a, r).0)
  {
  }

  lemma Prepend(f: seq<Region>, s: seq<Region>, low: nat)
    requires |f| <= 1 && (f != [] ==> low <= f[0].start < f[0].end)
    requires Ascending(s) && NoneEmpty(s)
    requires forall i :: 0 <= i < |s| ==> low <= s[i].start && (f != [] ==> f[0].end <= s[i].start)
    ensures Ascending(f + s) && NoneEmpty(f + s)
    ensures forall i :: 0 <= i < |f + s| ==> low <= (f + s)[i].start
  {
  }

  /** The regions handed out are not empty and in ascending order. */
  lemma {:induction false} FreeAscending(a: seq<Region>, r: seq<Region>)
    requires Ascending(a) && Ascending(r)
    ensures Ascending(Free(a, r)) && NoneEmpty(Free(a, r))
    ensures a != [] ==> forall i :: 0 <= i < |Free(a, r)| ==> a[0].start <= Free(a, r)[i].start
    decreases |a| + |r|
  {
    if a != [] && r == [] {
      FreeAscending(a[1..], []);
      Prepend(if a[0].start < a[0].end then [a[0]] else [], Free(a[1..], []), a[0].start);
    } else if a != [] {
      hide Rest, Found, Ascending, NoneEmpty;
      var (a', r') := Rest(a, r);
      FreeStep(a, r);
      RestAscending(a, r);
      RestAvailable(a, r);
      FreeAscending(a', r');
      StepBound(a, r);
      Prepend(Found(a, r), Free(a', r'), a[0].start);
    }
  }

  // ----- leaks, step by step -----

  lemma LeaksNowOrLater(a: seq<Region>, r: seq<Region>)
    requires Ascending(r) && a != [] && r != []
    ensures Leaks(a, r) <==> LeaksNow(a, r) || Leaks(Rest(a, r).0, Rest(a, r).1)
  {
    hide LeakAt, Rest, Ascending, LeaksNow;
    var (a', r') := Rest(a, r);
    RestSize(a, r);
    if LeaksNow(a, r) {
      var j := NowLeaks(a, r);
    } else {
      var da, dr := |a| - |a'|, |r| - |r'|;
      if Leaks(a, r) {
        var k: nat, i: nat, j: nat :| LeakAt(a, r, k, i, j);
        LeakStays(a, r, k, i, j);
        assert LeakAt(a', r', k - dr, i - da, j - da);
      }
      if Leaks(a', r') {
        var k: nat, i: nat, j: nat :| LeakAt(a', r', k, i, j);
        LeakWas(a, r, k, i, j);
        assert LeakAt(a, r, k + dr, i + da, j + da);
      }
    }
  }

  lemma RestSize(a: seq<Region>, r: seq<Region>)
    requires a != [] && r != []
    ensures |Rest(a, r).0| <= |a| && |Rest(a, r).1| <= |r|
  {
  }

  lemma NowLeaks(a: seq<Region>, r: seq<Region>) returns (j: nat)
    requires Ascending(r) && a != [] && r != [] && LeaksNow(a, r)
    ensures LeakAt(a, r, 0, 0, j)
  {
    j :| 0 < j < |a| && Overlap(r[0], a[j]);
  }

  /** Nothing reserved is below the first reserved region. */
  lemma BelowAll(r: seq<Region>, x: int)
    requires r != [] && Ascending(r)
    ensures x < r[0].start ==> !Covers(r, x)
  {
  }

  lemma LeakStays(a: seq<Region>, r: seq<Region>, k: nat, i: nat, j: nat)
    requires Ascending(r) && a != [] && r != [] && !LeaksNow(a, r) && LeakAt(a, r, k, i, j)
    ensures var (a', r') := Rest(a, r); var da, dr := |a| - |a'|, |r| - |r'|;
      da <= i < j && dr <= k && LeakAt(a', r', k - dr, i - da, j - da)
  {
    hide Covers, LeakAt, LeaksNow, Ascending;
    if |Rest(a, r).1| < |r| {
      LeakStaysTrimmed(a, r, k, i, j);
    } else {
      LeakStaysSkipped(a, r, k, i, j);
    }
  }

  lemma LeakStaysSkipped(a: seq<Region>, r: seq<Region>, k: nat, i: nat, j: nat)
    requires Ascending(r) && a != [] && r != [] && LeakAt(a, r, k, i, j)
    requires |Rest(a, r).1| == |r|
    ensures Rest(a, r) == (a[1..], r) && 1 <= i < j && LeakAt(a[1..], r, k, i - 1, j - 1)
  {
    hide Covers;
    BelowAll(r, r[k].start - 1);
    assert i != 0;
  }

  lemma LeakStaysTrimmed(a: seq<Region>, r: seq<Region>, k: nat, i: nat, j: nat)
    requires Ascending(r) && a != [] && r != [] && !LeaksNow(a, r) && LeakAt(a, r, k, i, j)
    requires |Rest(a, r).1| < |r|
    ensures |Rest(a, r).0| == |a| && 1 <= k && i < j && LeakAt(Rest(a, r).0, Rest(a, r).1, k - 1, i, j)
  {
    hide Covers;
    var (a', r') := Rest(a, r);
    var p := r[k].start - 1;
    CoversHead(r, p);
    assert k != 0;
    assert Overlap(r'[k - 1], a'[j]);
  }

  lemma LeakWas(a: seq<Region>, r: seq<Region>, k: nat, i: nat, j: nat)
    requires Ascending(r) && a != [] && r != [] && !LeaksNow(a, r)
    requires LeakAt(Rest(a, r).0, Rest(a, r).1, k, i, j)
    ensures var (a', r') := Rest(a, r); var da, dr := |a| - |a'|, |r| - |r'|;
      LeakAt(a, r, k + dr, i + da, j + da)
  {
    hide Covers;
    var (a', r') := Rest(a, r);
    CoversHead(r, r'[k].start - 1);
    if |r'| < |r| {
      LeakWasTrimmed(a, r, k, i, j);
    } else {
      assert a' == a[1..];
    }
  }

  lemma LeakWasTrimmed(a: seq<Region>, r: seq<Region>, k: nat, i: nat, j: nat)
    requires Ascending(r) && a != [] && r != [] && !LeaksNow(a, r)
    requires LeakAt(Rest(a, r).0, Rest(a, r).1, k, i, j) && |Rest(a, r).1| < |r|
    ensures |Rest(a, r).0| == |a| && LeakAt(a, r, k + 1, i, j)
  {
    hide Covers;
    var (a', r') := Rest(a, r);
    CoversHead(r, r'[k].start - 1);
    assert r'[k] == r[k + 1];
    assert Overlap(r[k + 1], a[j]);
  }
}
