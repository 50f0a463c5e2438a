/** Address ranges, and lists of them in ascending order. */
module Regions {

  /** The addresses from `start` up to, but not including, `end`. */
  datatype Region = Region(start: nat, end: nat)

  const NOTHING := Region(0, 0)

  function Min(a: nat, b: nat): nat { if a < b then a else b }

  predicate IsEmpty(r: Region) { r.start >= r.end }

  predicate Contains(r: Region, x: int) { r.start <= x < r.end }

  predicate Overlap(r: Region, q: Region) { r.start < q.end && q.start < r.end && !IsEmpty(r) && !IsEmpty(q) }

  ghost predicate Covers(s: seq<Region>, x: int) { exists i :: 0 <= i < |s| && Contains(s[i], x) }

  /** In ascending order; regions may be empty or touch. */
  ghost predicate Ascending(s: seq<Region>) {
    && (forall i :: 0 <= i < |s| ==> s[i].start <= s[i].end)
    && (forall i, j :: 0 <= i < j < |s| ==> s[i].end <= s[j].start)
  }

  ghost predicate NoneEmpty(s: seq<Region>) { forall i :: 0 <= i < |s| ==> s[i].start < s[i].end }

  /** Not empty, in ascending order, and with gaps in between. */
  ghost predicate Separate(s: seq<Region>) {
    NoneEmpty(s) && forall i, j :: 0 <= i < j < |s| ==> s[i].end < s[j].start
  }

  ghost predicate Avoids(s: seq<Region>, r: Region) { forall i :: 0 <= i < |s| ==> !Overlap(s[i], r) }

  /** Both lists cover the same addresses. */
  ghost predicate SameCover(s: seq<Region>, t: seq<Region>) { forall x :: Covers(s, x) <==> Covers(t, x) }

  /** `t` covers what `s` and `r` cover. */
  ghost predicate Adds(s: seq<Region>, r: Region, t: seq<Region>) { forall x :: Covers(t, x) <==> Covers(s, x) || Contains(r, x) }

  lemma CoversConcat(s: seq<Region>, t: seq<Region>, x: int)
    ensures Covers(s + t, x) <==> Covers(s, x) || Covers(t, x)
  {
    if Covers(s, x) {
      var i :| 0 <= i < |s| && Contains(s[i], x);
      assert (s + t)[i] == s[i];
    }
    if Covers(t, x) {
      var i :| 0 <= i < |t| && Contains(t[i], x);
      assert (s + t)[|s| + i] == t[i];
    }
  }

  lemma CoversOne(r: Region, x: int)
    ensures Covers([r], x) <==> Contains(r, x)
  {
    if Contains(r, x) { assert [r][0] == r; }
  }

  /** Replacing a stretch of a list by regions with the same addresses. */
  lemma ReplaceCover(s: seq<Region>, i: nat, j: nat, mid: seq<Region>)
    requires i <= j <= |s|
    ensures forall x :: Covers(s[..i] + mid + s[j..], x) <==> Covers(s[..i], x) || Covers(mid, x) || Covers(s[j..], x)
    ensures forall x :: Covers(s, x) <==> Covers(s[..i], x) || Covers(s[i..j], x) || Covers(s[j..], x)
  {
    assert s == s[..i] + s[i..j] + s[j..];
    forall x ensures Covers(s[..i] + mid + s[j..], x) <==> Covers(s[..i], x) || Covers(mid, x) || Covers(s[j..], x) {
      CoversConcat(s[..i] + mid, s[j..], x);
      CoversConcat(s[..i], mid, x);
    }
    forall x ensures Covers(s, x) <==> Covers(s[..i], x) || Covers(s[i..j], x) || Covers(s[j..], x) {
      CoversConcat(s[..i] + s[i..j], s[j..], x);
      CoversConcat(s[..i], s[i..j], x);
    }
  }
}
