/** The MCS release queue: threads whose budget is not yet ready, sorted by the time at
    which it will be, so that waking the due ones only ever looks at the head. */
module ReleaseQueue {
  import opened Sequences
  import opened TcbQueue

  type Times = map<nat, nat>

  ghost predicate Sorted(times: Times, s: seq<nat>) {
    && (forall i :: 0 <= i < |s| ==> s[i] in times)
    && (forall i, j :: 0 <= i < j < |s| ==> times[s[i]] <= times[s[j]])
  }

  lemma InsertSorted(times: Times, s: seq<nat>, k: nat, t: nat)
    requires Sorted(times, s) && k <= |s| && t in times
    requires forall i :: 0 <= i < k ==> times[s[i]] <= times[t]
    requires forall i :: k <= i < |s| ==> times[t] <= times[s[i]]
    ensures Sorted(times, InsertAt(s, k, t))
  {
    var r := InsertAt(s, k, t);
    assert forall i :: 0 <= i < |r| ==> r[i] == if i < k then s[i] else if i == k then t else s[i - 1];
  }

  /** `queue_insert`: links `tcb` in front of `after`, which must not be the head. */
  method QueueInsert(links: Links, q: Queue, tcb: nat, after: nat, ghost s: seq<nat>, ghost k: nat) returns (links': Links)
    requires IsList(links, q, s) && 0 < k < |s| && s[k] == after
    requires tcb in links && tcb != 0 && tcb !in s
    ensures IsList(links', q, InsertAt(s, k, tcb)) && OnlyChanges(links, links', InsertAt(s, k, tcb))
  {
    assert Linked(links, s, k) && Linked(links, s, k - 1);
    var before := links[after].prev;
    assert before != 0 && before != after;
    links' := links[tcb := Link(before, after)];
    links' := SetPrev(links', after, tcb);
    links' := SetNext(links', before, tcb);
    ghost var r := InsertAt(s, k, tcb);
    InsertDistinct(s, k, tcb);
    forall i: nat | i < |r| ensures Linked(links', r, i) {
      if i < k { assert Linked(links, s, i) && r[i] == s[i]; }
      if k < i { assert Linked(links, s, i - 1) && r[i] == s[i - 1]; }
    }
  }

  /** Where `release_enqueue` puts a thread that becomes ready at `time`, given that it is
      neither first nor last: in front of the first later one, or of the last one. */
  function PlaceAfter(times: Times, s: seq<nat>, time: nat, from: nat): (k: nat)
    requires from < |s| && forall i :: 0 <= i < |s| ==> s[i] in times
    ensures from <= k < |s|
    ensures forall i :: from <= i < k ==> times[s[i]] <= time
    ensures k + 1 < |s| ==> time < times[s[k]]
    decreases |s| - from
  {
    if times[s[from]] <= time && from + 1 < |s| then PlaceAfter(times, s, time, from + 1) else from
  }

  /** `find_time_after`. */
  method FindTimeAfter(times: Times, links: Links, q: Queue, time: nat, ghost s: seq<nat>) returns (after: nat, ghost k: nat)
    requires IsList(links, q, s) && s != [] && Sorted(times, s)
    ensures k == PlaceAfter(times, s, time, 0) && after == s[k]
  {
    after, k := q.head, 0;
    while times[after] <= time
      invariant k < |s| && after == s[k] && PlaceAfter(times, s, time, k) == PlaceAfter(times, s, time, 0)
      decreases |s| - k
    {
      assert Linked(links, s, k);
      if k + 1 < |s| { assert Linked(links, s, k + 1); }
      if links[after].next != 0 {
        after, k := links[after].next, k + 1;
      } else {
        break;
      }
    }
  }

  /** The stored queue holds `list`, sorted.  A thread is in one scheduler queue at a time, so the
      links of a thread outside it belong to a ready queue or are null. */
  ghost predicate Holds(times: Times, links: Links, queue: Queue, inQueue: set<nat>, list: seq<nat>) {
    && 0 !in times && links.Keys == times.Keys
    && IsList(links, queue, list) && Sorted(times, list)
    && (forall t :: t in inQueue <==> t in list)
  }

  lemma InsertHolds(times: Times, links: Links, queue: Queue, inQueue: set<nat>, s: seq<nat>, k: nat, t: nat, links': Links, queue': Queue)
    requires Holds(times, links, queue, inQueue, s) && k <= |s| && t in times
    requires forall i :: 0 <= i < k ==> times[s[i]] <= times[t]
    requires forall i :: k <= i < |s| ==> times[t] <= times[s[i]]
    requires IsList(links', queue', InsertAt(s, k, t)) && OnlyChanges(links, links', InsertAt(s, k, t))
    ensures Holds(times, links', queue', inQueue + {t}, InsertAt(s, k, t))
  {
    InsertSorted(times, s, k, t);
    assert forall u :: u in InsertAt(s, k, t) <==> u == t || u in s;
  }

  lemma RemoveHolds(times: Times, links: Links, queue: Queue, inQueue: set<nat>, s: seq<nat>, k: nat, links': Links, queue': Queue)
    requires Holds(times, links, queue, inQueue, s) && k < |s|
    requires IsList(links', queue', Cut(s, k)) && OnlyChanges(links, links', s) && s[k] in links' && links'[s[k]] == UNLINKED
    ensures Holds(times, links', queue', inQueue - {s[k]}, Cut(s, k))
  {
    CutMembers(s, k);
    CutSorted(times, s, k);
  }

  lemma CutSorted(times: Times, s: seq<nat>, k: nat)
    requires Sorted(times, s) && k < |s|
    ensures Sorted(times, Cut(s, k))
  {
    var r := Cut(s, k);
    assert forall i :: 0 <= i < |r| ==> r[i] == if i < k then s[i] else s[i + 1];
  }

  /** In a sorted queue the head bounds everything from below, the tail from above. */
  lemma Ends(times: Times, s: seq<nat>)
    requires Sorted(times, s) && s != []
    ensures forall i :: 0 <= i < |s| ==> times[s[0]] <= times[s[i]] <= times[s[|s| - 1]]
  {
  }

  /** The insertion point keeps the queue sorted and is in front of the head only if the
      queue has one thread, ready at the same time. */
  lemma {:induction false} PlaceIsRight(times: Times, s: seq<nat>, time: nat)
    requires Sorted(times, s) && s != [] && times[s[0]] <= time <= times[s[|s| - 1]]
    ensures var k := PlaceAfter(times, s, time, 0);
            && (forall i :: 0 <= i < k ==> times[s[i]] <= time)
            && (forall i :: k <= i < |s| ==> time <= times[s[i]])
            && (k == 0 <==> |s| == 1) && (k == 0 ==> times[s[0]] == time)
  {
  }

  /** What waking threads looks at: the head is the thread that is due first. */
  lemma HeadIsFirst(times: Times, links: Links, queue: Queue, inQueue: set<nat>, list: seq<nat>)
    requires Holds(times, links, queue, inQueue, list)
    ensures list == [] <==> queue.head == 0
    ensures list != [] ==> queue.head == list[0]
    ensures forall i :: 0 <= i < |list| ==> list[i] in times && times[list[0]] <= times[list[i]]
  {
    EndsInList(links, queue, list);
    if list != [] { Ends(times, list); }
  }

  /** Of the queue `all` the threads in `gone` have left, were due, and are unlinked; other links
      than those of the queue are as before. */
  ghost predicate Woken(times: Times, limit: nat, before: Links, after: Links, all: seq<nat>, gone: seq<nat>, list: seq<nat>) {
    && gone + list == all && Distinct(all) && OnlyChanges(before, after, all)
    && (forall i :: 0 <= i < |gone| ==> gone[i] in times && times[gone[i]] <= limit && gone[i] in after && after[gone[i]] == UNLINKED)
  }

  lemma WokenNone(times: Times, limit: nat, links: Links, queue: Queue, inQueue: set<nat>, list: seq<nat>)
    requires Holds(times, links, queue, inQueue, list)
    ensures Woken(times, limit, links, links, list, [], list)
  {
    assert [] + list == list;
  }

  lemma WokenMore(times: Times, limit: nat, before: Links, middle: Links, after: Links, all: seq<nat>, gone: seq<nat>, list: seq<nat>)
    requires Woken(times, limit, before, middle, all, gone, list) && list != []
    requires list[0] in times && times[list[0]] <= limit
    requires OnlyChanges(middle, after, list) && list[0] in after && after[list[0]] == UNLINKED
    ensures Woken(times, limit, before, after, all, gone + [list[0]], list[1..])
  {
    assert gone + [list[0]] + list[1..] == all;
    forall i, j | 0 <= i < |gone| && 0 <= j < |list| ensures gone[i] != list[j] {
      assert all[i] == gone[i] && all[|gone| + j] == list[j];
    }
    assert forall t :: t in list ==> t in all;
  }

  class ReleaseQueue {
    var times: Times       // ready time of every thread
    var links: Links       // tcbSchedPrev and tcbSchedNext
    var queue: Queue       // ksReleaseQueue
    var inQueue: set<nat>  // threads with tcbInReleaseQueue set
    var reprogram: bool    // ksReprogram
    ghost var list: seq<nat>

    ghost predicate Valid()
      reads this
    {
      Holds(times, links, queue, inQueue, list)
    }

    constructor (times: Times)
      requires 0 !in times
      ensures Valid() && list == [] && this.times == times
      ensures forall t :: t in times ==> t in links && links[t] == UNLINKED
    {
      this.times := times;
      links := map t | t in times :: UNLINKED;
      queue, inQueue, reprogram, list := EMPTY, {}, false, [];
    }

    /** `release_enqueue`.  The insertion asserts that it is not in front of the head; that
        assertion fails exactly for a one-element queue with the same ready time. */
    method ReleaseEnqueue(t: nat) returns (asserted: bool)
      requires Valid() && t in times && t !in inQueue && links[t] == UNLINKED
      modifies this
      ensures Valid() && times == old(times) && OnlyChanges(old(links), links, list)
      ensures asserted <==> (|old(list)| == 1 && times[old(list)[0]] == times[t])
      ensures asserted ==> list == old(list)
      ensures !asserted ==> exists k: nat :: k <= |old(list)| && list == InsertAt(old(list), k, t)
      ensures reprogram == (old(reprogram) || (!asserted && list[0] == t))
    {
      asserted := false;
      var time := times[t];
      EndsInList(links, queue, list);
      if queue.head == 0 || time < times[queue.head] {
        EnqueueFirst(t);
        reprogram := true;
      } else if times[queue.tail] < time {
        EnqueueLast(t);
      } else {
        asserted := EnqueueBetween(t);
      }
    }

    method EnqueueFirst(t: nat)
      requires Valid() && t in times && t !in list && links[t] == UNLINKED && (list != [] ==> times[t] <= times[list[0]])
      modifies this`links, this`queue, this`inQueue, this`list
      ensures Valid() && list == InsertAt(old(list), 0, t) && OnlyChanges(old(links), links, list)
    {
      ghost var s := list;
      var links', queue' := Prepend(links, queue, t, s);
      if s != [] { Ends(times, s); }
      assert [t] + s == InsertAt(s, 0, t);
      InsertHolds(times, links, queue, inQueue, s, 0, t, links', queue');
      links, queue, inQueue, list := links', queue', inQueue + {t}, InsertAt(s, 0, t);
    }

    method EnqueueLast(t: nat)
      requires Valid() && t in times && t !in list && links[t] == UNLINKED && list != [] && times[list[|list| - 1]] <= times[t]
      modifies this`links, this`queue, this`inQueue, this`list
      ensures Valid() && list == InsertAt(old(list), |old(list)|, t) && OnlyChanges(old(links), links, list)
    {
      ghost var s := list;
      var links', queue' := Append(links, queue, t, s);
      Ends(times, s);
      assert s + [t] == InsertAt(s, |s|, t);
      InsertHolds(times, links, queue, inQueue, s, |s|, t, links', queue');
      links, queue, inQueue, list := links', queue', inQueue + {t}, InsertAt(s, |s|, t);
    }

    method EnqueueBetween(t: nat) returns (asserted: bool)
      requires Valid() && t in times && t !in list && list != []
      requires times[list[0]] <= times[t] <= times[list[|list| - 1]]
      modifies this`links, this`inQueue, this`list
      ensures Valid() && asserted == (|old(list)| == 1) && OnlyChanges(old(links), links, list)
      ensures asserted ==> list == old(list)
      ensures !asserted ==> exists k: nat :: 0 < k < |old(list)| && list == InsertAt(old(list), k, t)
    {
      hide Distinct;
      ghost var s := list;
      var after; ghost var k;
      after, k := FindTimeAfter(times, links, queue, times[t], s);
      PlaceIsRight(times, s, times[t]);
      assert Linked(links, s, k);
      if k > 0 { assert Linked(links, s, k - 1); }
      if links[after].prev == 0 {
        return true;
      }
      var links' := QueueInsert(links, queue, t, after, s, k);
      InsertHolds(times, links, queue, inQueue, s, k, t, links', queue);
      links, inQueue, list := links', inQueue + {t}, InsertAt(s, k, t);
      return false;
    }

    /** `release_remove`. */
    method ReleaseRemove(t: nat)
      requires Valid() && t in times
      modifies this
      ensures Valid() && times == old(times) && list == Without(old(list), t)
      ensures OnlyChanges(old(links), links, old(list)) && (t in old(list) ==> links[t] == UNLINKED)
      ensures reprogram == (old(reprogram) || (old(list) != [] && old(list)[0] == t))
    {
      ghost var s := list;
      if t in inQueue {
        ghost var k: nat :| k < |s| && s[k] == t;
        if queue.head == t {
          reprogram := true;
        }
        var links', queue' := Remove(links, queue, t, s, k);
        RemoveHolds(times, links, queue, inQueue, s, k, links', queue');
        WithoutIsCut(s, k);
        links, queue, inQueue, list := links', queue', inQueue - {t}, Cut(s, k);
      } else {
        WithoutAbsent(s, t);
      }
    }

    /** `tcb_release_dequeue`. */
    method ReleaseDequeue() returns (awakened: nat)
      requires Valid() && list != []
      modifies this
      ensures Valid() && times == old(times) && OnlyChanges(old(links), links, old(list))
      ensures awakened == old(list)[0] && list == old(list)[1..] && reprogram && awakened in links && links[awakened] == UNLINKED
    {
      awakened := queue.head;
      WithoutIsCut(list, 0);
      hide Holds, Without, Distinct;
      HeadIsFirst(times, links, queue, inQueue, list);
      ReleaseRemove(awakened);
      assert Cut(old(list), 0) == old(list)[1..];
      reprogram := true;
    }

    /** `awaken`: although it only looks at the head, it wakes exactly the threads that are
        due by `limit`, the current time plus the kernel's worst-case time. */
    method Awaken(limit: nat) returns (awakened: seq<nat>)
      requires Valid()
      modifies this
      ensures Valid() && times == old(times)
      ensures Woken(times, limit, old(links), links, old(list), awakened, list)
      ensures forall i :: 0 <= i < |list| ==> list[i] in times && limit < times[list[i]]
    {
      hide Holds, OnlyChanges, Woken;
      awakened := [];
      WokenNone(times, limit, links, queue, inQueue, list);
      HeadIsFirst(times, links, queue, inQueue, list);
      while queue.head != 0 && times[queue.head] <= limit
        invariant Valid() && times == old(times)
        invariant Woken(times, limit, old(links), links, old(list), awakened, list)
        invariant list == [] <==> queue.head == 0
        invariant list != [] ==> queue.head == list[0] && queue.head in times
        decreases |list|
      {
        ghost var links0, list0 := links, list;
        var t := ReleaseDequeue();
        WokenMore(times, limit, old(links), links0, links, old(list), awakened, list0);
        awakened := awakened + [t];
        HeadIsFirst(times, links, queue, inQueue, list);
      }
      HeadIsFirst(times, links, queue, inQueue, list);
    }
  }

  /** Two threads that are ready at the same time: the second insertion fails its assertion. */
  method EnqueueTwice() returns (first: bool, second: bool)
    ensures !first && second
  {
    var q := new ReleaseQueue(map[1 := 5, 2 := 5]);
    first := q.ReleaseEnqueue(1);
    second := q.ReleaseEnqueue(2);
  }
}
