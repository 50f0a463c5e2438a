/** Sequences without repetition, and inserting and removing one element. */
module Sequences {

  ghost predicate Distinct(s: seq<nat>) { forall i, j :: 0 <= i < j < |s| ==> s[i] != s[j] }

  ghost function InsertAt(s: seq<nat>, k: nat, x: nat): (r: seq<nat>)
    requires k <= |s|
    ensures |r| == |s| + 1
  {
    s[..k] + [x] + s[k..]
  }

  lemma InsertIndex(s: seq<nat>, k: nat, x: nat, m: nat)
    requires k < |s| && m < |s| + 1
    ensures InsertAt(s, k + 1, x)[m] == if m <= k then s[m] else if m == k + 1 then x else s[m - 1]
  {
  }

  lemma InsertDistinct(s: seq<nat>, k: nat, t: nat)
    requires k <= |s| && Distinct(s) && t !in s
    ensures Distinct(InsertAt(s, k, t))
  {
    var r := InsertAt(s, k, t);
    forall i, j | 0 <= i < j < |r| ensures r[i] != r[j] {
      assert i < k ==> r[i] == s[i];
      assert k < j ==> r[j] == s[j - 1];
    }
  }

  /** Everything but the element at `k`. */
  ghost function Cut(s: seq<nat>, k: nat): (r: seq<nat>)
    requires k < |s|
    ensures |r| == |s| - 1
  {
    s[..k] + s[k + 1..]
  }

  lemma CutIndex(s: seq<nat>, k: nat, m: nat)
    requires k < |s| && m < |s| - 1
    ensures Cut(s, k)[m] == s[if m < k then m else m + 1]
  {
  }

  lemma CutMembers(s: seq<nat>, k: nat)
    requires k < |s| && Distinct(s)
    ensures forall u :: u in Cut(s, k) <==> u in s && u != s[k]
  {
    var r := Cut(s, k);
    forall u ensures u in r <==> u in s && u != s[k] {
      if u in s && u != s[k] {
        var i :| 0 <= i < |s| && s[i] == u;
        assert r[if i < k then i else i - 1] == u;
      }
      if u in r {
        var i :| 0 <= i < |r| && r[i] == u;
        assert u == s[if i < k then i else i + 1];
      }
    }
  }

  /** Everything but `t`. */
  function Without(q: seq<nat>, t: nat): (r: seq<nat>)
    ensures forall x :: x in r <==> x in q && x != t
  {
    if q == [] then [] else (if q[0] == t then [] else [q[0]]) + Without(q[1..], t)
  }

  lemma {:induction false} WithoutDistinct(q: seq<nat>, t: nat)
    requires Distinct(q)
    ensures Distinct(Without(q, t))
  {
    if q != [] {
      WithoutDistinct(q[1..], t);
      assert q[0] !in q[1..];
    }
  }

  lemma {:induction false} WithoutIsCut(q: seq<nat>, k: nat)
    requires k < |q| && Distinct(q)
    ensures Without(q, q[k]) == Cut(q, k)
  {
    if k == 0 {
      WithoutAbsent(q[1..], q[0]);
    } else {
      WithoutIsCut(q[1..], k - 1);
    }
  }

  lemma {:induction false} WithoutAbsent(q: seq<nat>, t: nat)
    requires t !in q
    ensures Without(q, t) == q
  {
    if q != [] { WithoutAbsent(q[1..], t); }
  }
}
