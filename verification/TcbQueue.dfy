/** Intrusive doubly linked queues of threads.  A queue is a head and a tail; the links
    are fields of the threads, here a table from thread to links.  Thread 0 is null. */
module TcbQueue {
  import opened Sequences

  datatype Link = Link(prev: nat, next: nat)

  datatype Queue = Queue(head: nat, tail: nat)

  type Links = map<nat, Link>

  const EMPTY: Queue := Queue(0, 0)
  const UNLINKED: Link := Link(0, 0)

  function PrevOf(s: seq<nat>, i: nat): nat
    requires i < |s|
  {
    if i == 0 then 0 else s[i - 1]
  }

  function NextOf(s: seq<nat>, i: nat): nat
    requires i < |s|
  {
    if i + 1 < |s| then s[i + 1] else 0
  }

  ghost predicate Linked(links: Links, s: seq<nat>, i: nat)
    requires i < |s|
  {
    s[i] != 0 && s[i] in links && links[s[i]] == Link(PrevOf(s, i), NextOf(s, i))
  }

  /** The threads of `q`, from head to tail, are `s`, each once, linked both ways. */
  ghost predicate IsList(links: Links, q: Queue, s: seq<nat>) {
    && Distinct(s)
    && q == (if s == [] then EMPTY else Queue(s[0], s[|s| - 1]))
    && (forall i: nat {:trigger Linked(links, s, i)} :: i < |s| ==> Linked(links, s, i))
  }

  /** Only the threads in `s` may have other links than before. */
  ghost predicate OnlyChanges(before: Links, after: Links, s: seq<nat>) {
    && before.Keys == after.Keys
    && forall t :: t in before && t !in s ==> after[t] == before[t]
  }

  function SetPrev(links: Links, t: nat, p: nat): Links
    requires t in links
  {
    links[t := links[t].(prev := p)]
  }

  function SetNext(links: Links, t: nat, n: nat): Links
    requires t in links
  {
    links[t := links[t].(next := n)]
  }

  /** A queue of other threads is not disturbed. */
  lemma ListFrame(before: Links, after: Links, s: seq<nat>, q: Queue, other: seq<nat>)
    requires IsList(before, q, other) && OnlyChanges(before, after, s)
    requires forall i :: 0 <= i < |other| ==> other[i] !in s
    ensures IsList(after, q, other)
  {
    forall i: nat | i < |other| ensures Linked(after, other, i) { assert Linked(before, other, i); }
  }

  lemma EndsInList(links: Links, q: Queue, s: seq<nat>)
    requires IsList(links, q, s)
    ensures q.head == 0 <==> s == []
    ensures q.tail == 0 <==> s == []
    ensures s != [] ==> q.head in links && q.tail in links
  {
    if s != [] { assert Linked(links, s, 0) && Linked(links, s, |s| - 1); }
  }

  // ----- scheduler links: a thread in no queue has null links -----

  method Prepend(links: Links, q: Queue, tcb: nat, ghost s: seq<nat>) returns (links': Links, q': Queue)
    requires IsList(links, q, s) && tcb in links && tcb != 0 && tcb !in s && links[tcb] == UNLINKED
    ensures IsList(links', q', [tcb] + s) && OnlyChanges(links, links', [tcb] + s)
  {
    EndsInList(links, q, s);
    links', q' := links, q;
    if q'.head == 0 {
      q' := q'.(tail := tcb);
    } else {
      links' := SetNext(links', tcb, q'.head);
      links' := SetPrev(links', q'.head, tcb);
    }
    q' := q'.(head := tcb);
    forall i: nat | i < |[tcb] + s| ensures Linked(links', [tcb] + s, i) {
      if i > 0 { assert Linked(links, s, i - 1); }
    }
  }

  method Append(links: Links, q: Queue, tcb: nat, ghost s: seq<nat>) returns (links': Links, q': Queue)
    requires IsList(links, q, s) && tcb in links && tcb != 0 && tcb !in s && links[tcb] == UNLINKED
    ensures IsList(links', q', s + [tcb]) && OnlyChanges(links, links', s + [tcb])
  {
    EndsInList(links, q, s);
    links', q' := links, q;
    if q'.head == 0 {
      q' := q'.(head := tcb);
    } else {
      links' := SetPrev(links', tcb, q'.tail);
      links' := SetNext(links', q'.tail, tcb);
    }
    q' := q'.(tail := tcb);
    forall i: nat | i < |s + [tcb]| ensures Linked(links', s + [tcb], i) {
      if i < |s| { assert Linked(links, s, i); }
    }
  }

  /** Removes a thread from the middle or an end and leaves it unlinked. */
  method Remove(links: Links, q: Queue, tcb: nat, ghost s: seq<nat>, ghost k: nat) returns (links': Links, q': Queue)
    requires IsList(links, q, s) && k < |s| && s[k] == tcb
    ensures IsList(links', q', Cut(s, k)) && OnlyChanges(links, links', s)
    ensures tcb in links' && links'[tcb] == UNLINKED
  {
    assert Linked(links, s, k);
    if k > 0 { assert Linked(links, s, k - 1); }
    if k + 1 < |s| { assert Linked(links, s, k + 1); }
    links', q' := links, q;
    var before, after := links[tcb].prev, links[tcb].next;
    if q'.head == tcb && q'.tail == tcb {
      q' := EMPTY;
    } else if q'.head == tcb {
      links' := SetPrev(links', after, 0);
      links' := SetNext(links', tcb, 0);
      q' := q'.(head := after);
    } else if q'.tail == tcb {
      links' := SetNext(links', before, 0);
      links' := SetPrev(links', tcb, 0);
      q' := q'.(tail := before);
    } else {
      links' := SetNext(links', before, after);
      links' := SetPrev(links', after, before);
      links' := links'[tcb := UNLINKED];
    }
    CutLinked(links, links', s, k);
  }

  lemma CutLinked(links: Links, links': Links, s: seq<nat>, k: nat)
    requires k < |s| && Distinct(s) && links'.Keys == links.Keys
    requires forall i: nat {:trigger Linked(links, s, i)} :: i < |s| ==> Linked(links, s, i)
    requires k > 0 ==> s[k - 1] in links' && links'[s[k - 1]] == Link(PrevOf(s, k - 1), NextOf(s, k))
    requires k + 1 < |s| ==> s[k + 1] in links' && links'[s[k + 1]] == Link(PrevOf(s, k), NextOf(s, k + 1))
    requires forall i :: 0 <= i < |s| && (i < k - 1 || k + 1 < i) && s[i] in links ==> links'[s[i]] == links[s[i]]
    ensures forall i: nat {:trigger Linked(links', Cut(s, k), i)} :: i < |Cut(s, k)| ==> Linked(links', Cut(s, k), i)
    ensures Distinct(Cut(s, k))
  {
    var c := Cut(s, k);
    forall i: nat | i < |c| ensures Linked(links', c, i) {
      if i < k { assert c[i] == s[i] && Linked(links, s, i); } else { assert c[i] == s[i + 1] && Linked(links, s, i + 1); }
    }
  }

  // ----- endpoint links: left as they are when a thread leaves its queue -----

  method EpAppend(links: Links, q: Queue, tcb: nat, ghost s: seq<nat>) returns (links': Links, q': Queue)
    requires IsList(links, q, s) && tcb in links && tcb != 0 && tcb !in s
    ensures IsList(links', q', s + [tcb]) && OnlyChanges(links, links', s + [tcb])
  {
    EndsInList(links, q, s);
    links', q' := links, q;
    if q'.head == 0 {
      q' := q'.(head := tcb);
    } else {
      links' := SetNext(links', q'.tail, tcb);
    }
    links' := links'[tcb := Link(q'.tail, 0)];
    q' := q'.(tail := tcb);
    forall i: nat | i < |s + [tcb]| ensures Linked(links', s + [tcb], i) {
      if i < |s| { assert Linked(links, s, i); }
    }
  }

  method EpDequeue(links: Links, q: Queue, tcb: nat, ghost s: seq<nat>, ghost k: nat) returns (links': Links, q': Queue)
    requires IsList(links, q, s) && k < |s| && s[k] == tcb
    ensures IsList(links', q', Cut(s, k)) && OnlyChanges(links, links', Cut(s, k))
  {
    assert Linked(links, s, k);
    if k > 0 { assert Linked(links, s, k - 1); }
    if k + 1 < |s| { assert Linked(links, s, k + 1); }
    links', q' := links, q;
    if links[tcb].prev != 0 {
      links' := SetNext(links', links[tcb].prev, links[tcb].next);
    } else {
      q' := q'.(head := links[tcb].next);
    }
    if links[tcb].next != 0 {
      links' := SetPrev(links', links[tcb].next, links[tcb].prev);
    } else {
      q' := q'.(tail := links[tcb].prev);
    }
    CutLinked(links, links', s, k);
  }

  // ----- endpoint queues by priority (MCS) -----

  /** Highest priority first. */
  ghost predicate ByPriority(prios: map<nat, nat>, s: seq<nat>) {
    && (forall i :: 0 <= i < |s| ==> s[i] in prios)
    && (forall i, j :: 0 <= i < j < |s| ==> prios[s[i]] >= prios[s[j]])
  }

  /** The MCS `ep_append`: behind everyone of the same or a higher priority, so the queue stays
      in order and threads of the same priority are first come, first served. */
  method EpAppendByPriority(links: Links, q: Queue, prios: map<nat, nat>, tcb: nat, ghost s: seq<nat>)
    returns (links': Links, q': Queue, ghost k: nat)
    requires IsList(links, q, s) && tcb in links && tcb != 0 && tcb !in s && ByPriority(prios, s) && tcb in prios
    ensures k <= |s| && IsList(links', q', InsertAt(s, k, tcb)) && OnlyChanges(links, links', InsertAt(s, k, tcb))
    ensures forall i :: 0 <= i < k ==> prios[s[i]] >= prios[tcb]
    ensures forall i :: k <= i < |s| ==> prios[s[i]] < prios[tcb]
    ensures ByPriority(prios, InsertAt(s, k, tcb))
  {
    var before, after;
    before, after, k := PlaceByPriority(links, q, prios, tcb, s);
    if k > 0 { assert Linked(links, s, k - 1); }
    if k < |s| { assert Linked(links, s, k); }
    links', q' := links, q;
    if before == 0 {
      q' := q'.(head := tcb);
    } else {
      links' := SetNext(links', before, tcb);
    }
    if after == 0 {
      q' := q'.(tail := tcb);
    } else {
      links' := SetPrev(links', after, tcb);
    }
    links' := links'[tcb := Link(before, after)];
    InsertLinked(links, links', s, k, tcb);
    InsertByPriority(prios, s, k, tcb);
  }

  /** The loop of `ep_append`, from the tail towards the head. */
  method PlaceByPriority(links: Links, q: Queue, prios: map<nat, nat>, tcb: nat, ghost s: seq<nat>)
    returns (before: nat, after: nat, ghost k: nat)
    requires IsList(links, q, s) && ByPriority(prios, s) && tcb in prios
    ensures k <= |s| && before == (if k == 0 then 0 else s[k - 1]) && after == (if k == |s| then 0 else s[k])
    ensures k > 0 ==> prios[s[k - 1]] >= prios[tcb]
    ensures forall i :: k <= i < |s| ==> prios[s[i]] < prios[tcb]
  {
    EndsInList(links, q, s);
    before, after, k := q.tail, 0, |s|;
    while before != 0 && prios[tcb] > prios[before]
      invariant 0 <= k <= |s| && before == (if k == 0 then 0 else s[k - 1]) && after == (if k == |s| then 0 else s[k])
      invariant forall i :: k <= i < |s| ==> prios[s[i]] < prios[tcb]
      decreases k
    {
      assert Linked(links, s, k - 1);
      after := before;
      before := links[after].prev;
      k := k - 1;
    }
    if k > 0 { assert Linked(links, s, k - 1); }
  }

  lemma InsertLinked(links: Links, links': Links, s: seq<nat>, k: nat, tcb: nat)
    requires k <= |s| && Distinct(s) && tcb !in s && tcb != 0 && links'.Keys == links.Keys && tcb in links
    requires forall i: nat {:trigger Linked(links, s, i)} :: i < |s| ==> Linked(links, s, i)
    requires links'[tcb] == Link(if k == 0 then 0 else s[k - 1], if k == |s| then 0 else s[k])
    requires k > 0 ==> s[k - 1] in links' && links'[s[k - 1]] == Link(PrevOf(s, k - 1), tcb)
    requires k < |s| ==> s[k] in links' && links'[s[k]] == Link(tcb, NextOf(s, k))
    requires forall i :: 0 <= i < |s| && i != k - 1 && i != k && s[i] in links ==> links'[s[i]] == links[s[i]]
    ensures forall i: nat {:trigger Linked(links', InsertAt(s, k, tcb), i)} :: i < |InsertAt(s, k, tcb)| ==> Linked(links', InsertAt(s, k, tcb), i)
    ensures Distinct(InsertAt(s, k, tcb))
  {
    var r := InsertAt(s, k, tcb);
    InsertDistinct(s, k, tcb);
    forall i: nat | i < |r| ensures Linked(links', r, i) {
      if i < k { assert r[i] == s[i] && Linked(links, s, i); }
      if k < i { assert r[i] == s[i - 1] && Linked(links, s, i - 1); }
    }
  }

  lemma InsertByPriority(prios: map<nat, nat>, s: seq<nat>, k: nat, tcb: nat)
    requires ByPriority(prios, s) && tcb in prios && k <= |s| && (k > 0 ==> prios[s[k - 1]] >= prios[tcb])
    requires forall i :: k <= i < |s| ==> prios[s[i]] < prios[tcb]
    ensures ByPriority(prios, InsertAt(s, k, tcb)) && forall i :: 0 <= i < k ==> prios[s[i]] >= prios[tcb]
  {
    var r := InsertAt(s, k, tcb);
    assert forall i :: 0 <= i < k - 1 ==> prios[s[i]] >= prios[s[k - 1]];
    assert forall i :: 0 <= i < |r| ==> r[i] == if i < k then s[i] else if i == k then tcb else s[i - 1];
  }
}
