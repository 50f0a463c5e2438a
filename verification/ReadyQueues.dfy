/** The scheduler as the kernel stores it: one intrusive list per priority, and a
    two-level bitmap that finds the highest non-empty list with two bit scans.  Every
    method does to this state what the function of Scheduler of that name does. */
module ReadyQueues {
  import opened Scheduler
  import SchedulerRuns
  import opened Sequences
  import opened TcbQueue
  import opened ThreadStates

  /** A 64-bit word, as the set of its one bits. */
  type Word = w: set<nat> | forall i :: i in w ==> i < 64

  /** The zero bits of `w` from bit `from` down to its highest one bit below that. */
  function ZerosFrom(w: Word, from: nat): (n: nat)
    requires from < 64
    ensures n <= from + 1
    ensures n <= from ==> from - n in w
    ensures forall j :: from - n < j <= from ==> j !in w
  {
    if from in w then 0 else if from == 0 then 1 else 1 + ZerosFrom(w, from - 1)
  }

  function LeadingZeros(w: Word): (n: nat)
    requires w != {}
    ensures n < 64 && 63 - n in w && forall j :: j in w ==> j <= 63 - n
  {
    var n := ZerosFrom(w, 63);
    assert n < 64 by { var i :| i in w; }
    n
  }

  const L2_BITMAP_SIZE: nat := 4

  function PrioToL1Index(prio: Prio): nat { prio / 64 }

  function InvertL1Index(l1index: nat): nat
    requires l1index < L2_BITMAP_SIZE
  {
    L2_BITMAP_SIZE - 1 - l1index
  }

  /** The second-level bit of a priority says whether its queue is non-empty. */
  ghost predicate PrioBit(l2: seq<Word>, lists: Queues, p: Prio)
    requires |l2| == L2_BITMAP_SIZE
  {
    p % 64 in l2[InvertL1Index(PrioToL1Index(p))] <==> lists[p] != []
  }

  /** The bitmaps agree with the queues. */
  ghost predicate BitmapsOk(l1: Word, l2: seq<Word>, lists: Queues) {
    && |l2| == L2_BITMAP_SIZE
    && (forall i :: i in l1 ==> i < L2_BITMAP_SIZE)
    && (forall p: Prio {:trigger PrioBit(l2, lists, p)} :: PrioBit(l2, lists, p))
    && (forall i {:trigger i in l1} :: 0 <= i < L2_BITMAP_SIZE ==> (i in l1 <==> l2[InvertL1Index(i)] != {}))
  }

  /** The two bit scans find the highest non-empty queue. */
  function ScanBitmaps(l1: Word, l2: seq<Word>, ghost lists: Queues): (prio: Prio)
    requires BitmapsOk(l1, l2, lists) && l1 != {}
    ensures prio == GetHighestPrio(lists) && lists[prio] != []
  {
    var l1index := 63 - LeadingZeros(l1);
    var word := l2[InvertL1Index(l1index)];
    var l2index := 63 - LeadingZeros(word);
    var prio := l1index * 64 + l2index;
    assert prio == GetHighestPrio(lists) && lists[prio] != [] by { ScanIsHighest(l1, l2, lists, l1index, l2index); }
    prio
  }

  lemma ScanIsHighest(l1: Word, l2: seq<Word>, lists: Queues, l1index: nat, l2index: nat)
    requires BitmapsOk(l1, l2, lists) && l1index in l1 && (forall j :: j in l1 ==> j <= l1index)
    requires var w := l2[InvertL1Index(l1index)]; l2index in w && (forall j :: j in w ==> j <= l2index)
    ensures l1index * 64 + l2index == GetHighestPrio(lists) && lists[l1index * 64 + l2index] != []
  {
    var prio: Prio := l1index * 64 + l2index;
    assert PrioBit(l2, lists, prio);
    forall p: Prio | lists[p] != [] ensures p <= prio {
      var i := PrioToL1Index(p);
      assert PrioBit(l2, lists, p);
      assert i in l1;
      assert p == i * 64 + p % 64;
    }
  }

  lemma EmptyBitmaps(l1: Word, l2: seq<Word>, lists: Queues)
    requires BitmapsOk(l1, l2, lists)
    ensures l1 == {} <==> AllEmpty(lists)
  {
    if l1 == {} {
      forall p: Prio ensures lists[p] == [] {
        assert PrioBit(l2, lists, p) && PrioToL1Index(p) !in l1;
      }
    } else {
      var l1index := 63 - LeadingZeros(l1);
      var _ := ScanBitmaps(l1, l2, lists);
    }
  }

  lemma AddBit(l1: Word, l2: seq<Word>, lists: Queues, prio: Prio, q: seq<nat>)
    requires BitmapsOk(l1, l2, lists) && q != []
    ensures var k := PrioToL1Index(prio); var w := InvertL1Index(k);
            BitmapsOk(l1 + {k}, l2[w := l2[w] + {prio % 64}], lists[prio := q])
  {
    var w := InvertL1Index(PrioToL1Index(prio));
    var l2', lists' := l2[w := l2[w] + {prio % 64}], lists[prio := q];
    forall p: Prio ensures PrioBit(l2', lists', p) { assert PrioBit(l2, lists, p); }
  }

  lemma RemoveBit(l1: Word, l2: seq<Word>, lists: Queues, prio: Prio)
    requires BitmapsOk(l1, l2, lists)
    ensures var k := PrioToL1Index(prio); var w := InvertL1Index(k); var word := l2[w] - {prio % 64};
            BitmapsOk(if word == {} then l1 - {k} else l1, l2[w := word], lists[prio := []])
  {
    var w := InvertL1Index(PrioToL1Index(prio));
    var l2', lists' := l2[w := l2[w] - {prio % 64}], lists[prio := []];
    forall p: Prio ensures PrioBit(l2', lists', p) { assert PrioBit(l2, lists, p); }
  }

  lemma SameBit(l1: Word, l2: seq<Word>, lists: Queues, prio: Prio, q: seq<nat>)
    requires BitmapsOk(l1, l2, lists) && q != [] && lists[prio] != []
    ensures BitmapsOk(l1, l2, lists[prio := q])
  {
    var lists' := lists[prio := q];
    forall p: Prio ensures PrioBit(l2, lists', p) { assert PrioBit(l2, lists, p); }
  }

  // ----- the lists -----

  ghost predicate ListAt(links: Links, heads: seq<Queue>, lists: Queues, p: Prio)
    requires |heads| == NUM_PRIORITIES
  {
    IsList(links, heads[p], lists[p])
  }

  ghost predicate ListsOk(links: Links, heads: seq<Queue>, lists: Queues) {
    && |heads| == NUM_PRIORITIES
    && forall p: Prio {:trigger ListAt(links, heads, lists, p)} :: ListAt(links, heads, lists, p)
  }

  /** A change inside one list leaves the lists of other priorities alone. */
  lemma OtherLists(links: Links, links': Links, heads: seq<Queue>, lists: Queues, prio: Prio, q: Queue, s: seq<nat>, touched: seq<nat>)
    requires ListsOk(links, heads, lists) && IsList(links', q, s) && OnlyChanges(links, links', touched)
    requires forall p: Prio, t :: t in lists[p] && t in touched ==> p == prio
    ensures ListsOk(links', heads[prio := q], lists[prio := s])
  {
    var heads', lists' := heads[prio := q], lists[prio := s];
    forall p: Prio ensures ListAt(links', heads', lists', p) {
      if p != prio {
        assert ListAt(links, heads, lists, p);
        ListFrame(links, links', touched, heads[p], lists[p]);
      }
    }
  }

  lemma Apart(tcbs: map<nat, Tcb>, lists: Queues, t: nat, touched: seq<nat>)
    requires SchedulerRuns.QueuesMatch(tcbs, lists) && t in tcbs
    requires forall u :: u in touched ==> u == t || u in lists[tcbs[t].prio]
    ensures forall p: Prio, u :: u in lists[p] && u in touched ==> p == tcbs[t].prio
    ensures forall u :: u in touched && u != t ==> u in tcbs && tcbs[u].queued
  {
    forall p: Prio, u | u in lists[p] && u in touched ensures p == tcbs[t].prio {
      assert tcbs[u].prio == p;
      assert u != t ==> u in lists[tcbs[t].prio];
    }
  }

  /** Threads in no queue have null links. */
  ghost predicate UnlinkedOk(links: Links, tcbs: map<nat, Tcb>) {
    && links.Keys == tcbs.Keys
    && forall t :: t in tcbs && !tcbs[t].queued ==> links[t] == UNLINKED
  }

  lemma StillUnlinked(links: Links, links': Links, tcbs: map<nat, Tcb>, t: nat, queued: bool, touched: seq<nat>)
    requires UnlinkedOk(links, tcbs) && OnlyChanges(links, links', touched) && t in tcbs
    requires forall u :: u in touched && u != t ==> u in tcbs && tcbs[u].queued
    requires !queued ==> t in links' && links'[t] == UNLINKED
    ensures UnlinkedOk(links', tcbs[t := tcbs[t].(queued := queued)])
  {
  }

  /** Lists, links and the queued flags agree. */
  ghost predicate Linkage(links: Links, heads: seq<Queue>, tcbs: map<nat, Tcb>, lists: Queues) {
    && 0 !in tcbs && UnlinkedOk(links, tcbs)
    && ListsOk(links, heads, lists)
    && SchedulerRuns.QueuesMatch(tcbs, lists)
  }

  /** The stored state holds the queues `lists` of the threads `tcbs`. */
  ghost predicate Represents(links: Links, heads: seq<Queue>, l1: Word, l2: seq<Word>, tcbs: map<nat, Tcb>, lists: Queues) {
    Linkage(links, heads, tcbs, lists) && BitmapsOk(l1, l2, lists)
  }

  /** Replacing the list of the priority of `t`, whose membership is all that changes. */
  lemma ReplaceKeeps(links: Links, heads: seq<Queue>, tcbs: map<nat, Tcb>, lists: Queues,
                     t: nat, links': Links, q: Queue, queued: bool, s: seq<nat>, touched: seq<nat>)
    requires Linkage(links, heads, tcbs, lists) && t in tcbs
    requires IsList(links', q, s) && OnlyChanges(links, links', touched) && (!queued ==> t in links' && links'[t] == UNLINKED)
    requires forall u :: u in touched ==> u == t || u in lists[tcbs[t].prio]
    requires SchedulerRuns.QueuesMatch(tcbs[t := tcbs[t].(queued := queued)], lists[tcbs[t].prio := s])
    ensures Linkage(links', heads[tcbs[t].prio := q], tcbs[t := tcbs[t].(queued := queued)], lists[tcbs[t].prio := s])
  {
    Apart(tcbs, lists, t, touched);
    OtherLists(links, links', heads, lists, tcbs[t].prio, q, s, touched);
    StillUnlinked(links, links', tcbs, t, queued, touched);
  }

  lemma InsertKeeps(links: Links, heads: seq<Queue>, l1: Word, l2: seq<Word>, tcbs: map<nat, Tcb>, lists: Queues,
                    t: nat, links': Links, q: Queue, s: seq<nat>)
    requires Represents(links, heads, l1, l2, tcbs, lists) && t in tcbs && !tcbs[t].queued
    requires s == [t] + lists[tcbs[t].prio] || s == lists[tcbs[t].prio] + [t]
    requires IsList(links', q, s) && OnlyChanges(links, links', s)
    ensures Linkage(links', heads[tcbs[t].prio := q], tcbs[t := tcbs[t].(queued := true)], lists[tcbs[t].prio := s])
  {
    var a := Sched(tcbs, lists, t, t, ChooseNew);
    SchedulerRuns.EnqueueKeeps(a, t);
    SchedulerRuns.AppendKeeps(a, t);
    ReplaceKeeps(links, heads, tcbs, lists, t, links', q, true, s, s);
  }

  lemma {:induction false} RemoveKeeps(links: Links, heads: seq<Queue>, l1: Word, l2: seq<Word>, tcbs: map<nat, Tcb>, lists: Queues,
                    t: nat, links': Links, q: Queue, k: nat)
    requires Represents(links, heads, l1, l2, tcbs, lists) && t in tcbs && tcbs[t].queued
    requires var s := lists[tcbs[t].prio];
             && k < |s| && s[k] == t && Distinct(s) && IsList(links', q, Cut(s, k)) && OnlyChanges(links, links', s)
             && t in links' && links'[t] == UNLINKED
    ensures var s := lists[tcbs[t].prio];
            && Cut(s, k) == Without(s, t) && (q.head == 0 <==> Cut(s, k) == [])
            && Linkage(links', heads[tcbs[t].prio := q], tcbs[t := tcbs[t].(queued := false)], lists[tcbs[t].prio := Cut(s, k)])
  {
    var s := lists[tcbs[t].prio];
    SchedulerRuns.DequeueKeeps(Sched(tcbs, lists, t, t, ChooseNew), t);
    WithoutIsCut(s, k);
    EndsInList(links', q, Cut(s, k));
    ReplaceKeeps(links, heads, tcbs, lists, t, links', q, false, Cut(s, k), s);
  }

  lemma UpdateKeeps(links: Links, heads: seq<Queue>, l1: Word, l2: seq<Word>, tcbs: map<nat, Tcb>, lists: Queues, t: nat, tcb: Tcb)
    requires Represents(links, heads, l1, l2, tcbs, lists)
    requires t in tcbs && tcb.queued == tcbs[t].queued && (tcb.queued ==> tcb.prio == tcbs[t].prio)
    ensures Represents(links, heads, l1, l2, tcbs[t := tcb], lists)
  {
  }

  /** Putting the current thread back in its queue does not touch the candidate. */
  lemma ParkedClosed(s: Sched)
    requires SchedulerRuns.Inv(s)
    ensures s.cur in s.tcbs && Closed(s)
    ensures var s' := Enqueue(s, s.cur); Closed(s') && s'.action == s.action && s'.cur == s.cur && s'.idle == s.idle
    ensures s.action.SwitchTo? ==> s.action.thread in s.tcbs && IsRunnable(s.tcbs[s.action.thread].state)
    ensures s.action.SwitchTo? ==>
      var s' := Enqueue(s, s.cur); s.action.thread in s'.tcbs && IsRunnable(s'.tcbs[s.action.thread].state)
  {
    SchedulerRuns.EnqueueKeeps(s, s.cur);
    SchedulerRuns.InvClosed(s);
    SchedulerRuns.InvClosed(Enqueue(s, s.cur));
  }

  class Kernel {
    var tcbs: map<nat, Tcb>
    var links: Links         // tcbSchedPrev and tcbSchedNext
    var heads: seq<Queue>    // ksReadyQueues
    var l1: Word             // ksReadyQueuesL1Bitmap
    var l2: seq<Word>        // ksReadyQueuesL2Bitmap
    var cur: nat             // ksCurThread
    var idle: nat            // ksIdleThread
    var action: Action       // ksSchedulerAction
    ghost var lists: Queues  // what the intrusive lists hold

    ghost function Abs(): Sched
      reads this
    {
      Sched(tcbs, lists, cur, idle, action)
    }

    ghost predicate Valid()
      reads this`links, this`heads, this`l1, this`l2, this`tcbs, this`lists
    {
      Represents(links, heads, l1, l2, tcbs, lists)
    }

    /** `init_core_state`, with the initial thread or SchedulerAction_ResumeCurrentThread. */
    constructor (tcbs: map<nat, Tcb>, idle: nat, action: Action)
      requires 0 !in tcbs && SchedulerRuns.BootTcbs(tcbs, idle, action)
      ensures Valid() && SchedulerRuns.Inv(Abs()) && Abs() == SchedulerRuns.Boot(tcbs, idle, action)
    {
      this.tcbs := tcbs;
      links := map t | t in tcbs :: UNLINKED;
      heads := seq(NUM_PRIORITIES, i => EMPTY);
      l1, l2 := {}, [{}, {}, {}, {}];
      cur, this.idle, this.action := idle, idle, action;
      lists := seq(NUM_PRIORITIES, i => []);
    }

    method AddToBitmap(prio: Prio, ghost q: seq<nat>)
      requires BitmapsOk(l1, l2, lists) && q != []
      modifies this`l1, this`l2
      ensures BitmapsOk(l1, l2, lists[prio := q])
    {
      var l1index := PrioToL1Index(prio);
      var inverted := InvertL1Index(l1index);
      AddBit(l1, l2, lists, prio, q);
      l1 := l1 + {l1index};
      l2 := l2[inverted := l2[inverted] + {prio % 64}];
    }

    method RemoveFromBitmap(prio: Prio)
      requires BitmapsOk(l1, l2, lists)
      modifies this`l1, this`l2
      ensures BitmapsOk(l1, l2, lists[prio := []])
    {
      var l1index := PrioToL1Index(prio);
      var inverted := InvertL1Index(l1index);
      RemoveBit(l1, l2, lists, prio);
      l2 := l2[inverted := l2[inverted] - {prio % 64}];
      if l2[inverted] == {} {
        l1 := l1 - {l1index};
      }
    }

    /** Stores a new list for the priority of `t`, whose membership is all that changes. */
    method Install(t: nat, links': Links, q: Queue, queued: bool, ghost s: seq<nat>)
      requires t in tcbs && |heads| == NUM_PRIORITIES
      modifies this`tcbs, this`links, this`heads, this`lists
      ensures links == links' && heads == old(heads)[old(tcbs)[t].prio := q]
      ensures tcbs == old(tcbs)[t := old(tcbs)[t].(queued := queued)] && lists == old(lists)[old(tcbs)[t].prio := s]
    {
      var prio := tcbs[t].prio;
      links, heads := links', heads[prio := q];
      tcbs := tcbs[t := tcbs[t].(queued := queued)];
      lists := lists[prio := s];
    }

    /** The bitmap update for a priority that gains a thread. */
    method MarkNonEmpty(prio: Prio, ghost q: seq<nat>)
      requires Valid() && q != []
      modifies this`l1, this`l2
      ensures BitmapsOk(l1, l2, lists[prio := q])
    {
      assert ListAt(links, heads, lists, prio);
      EndsInList(links, heads[prio], lists[prio]);
      if heads[prio].head == 0 {
        AddToBitmap(prio, q);
      } else {
        SameBit(l1, l2, lists, prio, q);
      }
    }

    /** The bitmap update for a priority that has lost a thread and now holds `q`. */
    method MarkIfEmpty(prio: Prio, head: nat, ghost q: seq<nat>)
      requires BitmapsOk(l1, l2, lists) && lists[prio] != [] && (head == 0 <==> q == [])
      modifies this`l1, this`l2
      ensures BitmapsOk(l1, l2, lists[prio := q])
    {
      if head == 0 {
        RemoveFromBitmap(prio);
      } else {
        SameBit(l1, l2, lists, prio, q);
      }
    }

    lemma FreeThread(t: nat)
      requires Valid() && t in tcbs && !tcbs[t].queued
      ensures var s := lists[tcbs[t].prio];
              IsList(links, heads[tcbs[t].prio], s) && t !in s && t in links && t != 0 && links[t] == UNLINKED
    {
      assert ListAt(links, heads, lists, tcbs[t].prio);
    }

    method Insert(t: nat, links': Links, q: Queue, ghost s: seq<nat>)
      requires Valid() && t in tcbs && !tcbs[t].queued
      requires s == [t] + lists[tcbs[t].prio] || s == lists[tcbs[t].prio] + [t]
      requires IsList(links', q, s) && OnlyChanges(links, links', s)
      modifies this`tcbs, this`links, this`heads, this`l1, this`l2, this`lists
      ensures Valid()
      ensures tcbs == old(tcbs)[t := old(tcbs)[t].(queued := true)] && lists == old(lists)[old(tcbs)[t].prio := s]
    {
      InsertKeeps(links, heads, l1, l2, tcbs, lists, t, links', q, s);
      MarkNonEmpty(tcbs[t].prio, s);
      Install(t, links', q, true, s);
    }

    method SchedEnqueue(t: nat)
      requires Valid() && t in tcbs
      modifies this`tcbs, this`links, this`heads, this`l1, this`l2, this`lists
      ensures Valid() && Abs() == Enqueue(old(Abs()), t)
    {
      if !tcbs[t].queued {
        var prio := tcbs[t].prio;
        ghost var s := [t] + lists[prio];
        FreeThread(t);
        var links', q := Prepend(links, heads[prio], t, lists[prio]);
        Insert(t, links', q, s);
      }
    }

    method SchedAppend(t: nat)
      requires Valid() && t in tcbs
      modifies this`tcbs, this`links, this`heads, this`l1, this`l2, this`lists
      ensures Valid() && Abs() == Scheduler.Append(old(Abs()), t)
    {
      if !tcbs[t].queued {
        var prio := tcbs[t].prio;
        ghost var s := lists[prio] + [t];
        FreeThread(t);
        var links', q := TcbQueue.Append(links, heads[prio], t, lists[prio]);
        Insert(t, links', q, s);
      }
    }

    method SchedDequeue(t: nat)
      requires Valid() && t in tcbs
      modifies this`tcbs, this`links, this`heads, this`l1, this`l2, this`lists
      ensures Valid() && Abs() == Dequeue(old(Abs()), t)
    {
      if tcbs[t].queued {
        var prio := tcbs[t].prio;
        ghost var s, k := lists[prio], PlaceOf(t);
        var links', q := Remove(links, heads[prio], t, s, k);
        Discard(t, links', q, k);
      }
    }

    method Discard(t: nat, links': Links, q: Queue, ghost k: nat)
      requires Valid() && t in tcbs && tcbs[t].queued
      requires var s := lists[tcbs[t].prio];
               && k < |s| && s[k] == t && Distinct(s) && IsList(links', q, Cut(s, k)) && OnlyChanges(links, links', s)
               && t in links' && links'[t] == UNLINKED
      modifies this`tcbs, this`links, this`heads, this`l1, this`l2, this`lists
      ensures Valid()
      ensures tcbs == old(tcbs)[t := old(tcbs)[t].(queued := false)]
      ensures lists == old(lists)[old(tcbs)[t].prio := Without(old(lists)[old(tcbs)[t].prio], t)]
    {
      ghost var s := Cut(lists[tcbs[t].prio], k);
      RemoveKeeps(links, heads, l1, l2, tcbs, lists, t, links', q, k);
      MarkIfEmpty(tcbs[t].prio, q.head, s);
      Install(t, links', q, false, s);
    }

    ghost function PlaceOf(t: nat): (k: nat)
      requires Valid() && t in tcbs && tcbs[t].queued
      reads this
      ensures var s := lists[tcbs[t].prio]; k < |s| && s[k] == t && IsList(links, heads[tcbs[t].prio], s)
    {
      var s := lists[tcbs[t].prio];
      assert ListAt(links, heads, lists, tcbs[t].prio) && t in s;
      var k: nat :| k < |s| && s[k] == t;
      k
    }

    /** `get_highest_prio`: two bit scans find the maximum non-empty priority. */
    method GetHighestPrio() returns (prio: Prio)
      requires Valid() && l1 != {}
      ensures prio == Scheduler.GetHighestPrio(lists) && lists[prio] != []
    {
      prio := ScanBitmaps(l1, l2, lists);
    }

    method IsHighestPrio(prio: Prio) returns (b: bool)
      requires Valid()
      ensures b == Scheduler.IsHighestPrio(lists, prio)
    {
      EmptyBitmaps(l1, l2, lists);
      if l1 == {} {
        b := true;
      } else {
        var h := GetHighestPrio();
        b := prio >= h;
      }
    }

    // ----- the operations of the scheduler -----

    ghost predicate Pending()
      reads this
    {
      action.SwitchTo? ==> action.thread in tcbs
    }

    method RescheduleRequired()
      requires Valid() && Pending()
      modifies this`tcbs, this`links, this`heads, this`l1, this`l2, this`lists, this`action
      ensures Valid() && Abs() == Scheduler.RescheduleRequired(old(Abs()))
    {
      if action != ResumeCurrent && action != ChooseNew {
        SchedEnqueue(action.thread);
      }
      action := ChooseNew;
    }

    method PossibleSwitchTo(t: nat)
      requires Valid() && Pending() && t in tcbs
      modifies this`tcbs, this`links, this`heads, this`l1, this`l2, this`lists, this`action
      ensures Valid() && Abs() == Scheduler.PossibleSwitchTo(old(Abs()), t)
    {
      if action != ResumeCurrent {
        RescheduleRequired();
        SchedEnqueue(t);
      } else {
        action := SwitchTo(t);
      }
    }

    /** Changes fields of a thread that no queue depends on. */
    method UpdateTcb(t: nat, tcb: Tcb)
      requires Valid() && t in tcbs && tcb.queued == tcbs[t].queued && (tcb.queued ==> tcb.prio == tcbs[t].prio)
      modifies this`tcbs
      ensures Valid() && Abs() == SetTcb(old(Abs()), t, tcb)
    {
      UpdateKeeps(links, heads, l1, l2, tcbs, lists, t, tcb);
      tcbs := tcbs[t := tcb];
    }

    method SetThreadState(t: nat, ts: ThreadState)
      requires Valid() && Pending() && t in tcbs
      modifies this`tcbs, this`links, this`heads, this`l1, this`l2, this`lists, this`action
      ensures Valid() && Abs() == SetState(old(Abs()), t, ts)
    {
      UpdateTcb(t, tcbs[t].(state := ts));
      if t == cur && action == ResumeCurrent && !IsRunnable(tcbs[t].state) {
        RescheduleRequired();
      }
    }

    method SetPriority(t: nat, prio: Prio)
      requires Valid() && Pending() && t in tcbs
      modifies this`tcbs, this`links, this`heads, this`l1, this`l2, this`lists, this`action
      ensures Valid() && Abs() == Scheduler.SetPriority(old(Abs()), t, prio)
    {
      SchedDequeue(t);
      UpdateTcb(t, tcbs[t].(prio := prio));
      if IsRunnable(tcbs[t].state) {
        if t == cur {
          RescheduleRequired();
        } else {
          PossibleSwitchTo(t);
        }
      }
    }

    method HandleYield()
      requires Valid() && Pending() && cur in tcbs
      modifies this`tcbs, this`links, this`heads, this`l1, this`l2, this`lists, this`action
      ensures Valid() && Abs() == Yield(old(Abs()))
    {
      SchedDequeue(cur);
      SchedAppend(cur);
      RescheduleRequired();
    }

    method TimerTick()
      requires Valid() && Pending() && cur in tcbs
      modifies this`tcbs, this`links, this`heads, this`l1, this`l2, this`lists, this`action
      ensures Valid() && Abs() == Scheduler.TimerTick(old(Abs()))
    {
      if tcbs[cur].state == Running {
        if tcbs[cur].timeSlice > 1 {
          UpdateTcb(cur, tcbs[cur].(timeSlice := tcbs[cur].timeSlice - 1));
        } else {
          UpdateTcb(cur, tcbs[cur].(timeSlice := TIME_SLICE));
          SchedAppend(cur);
          RescheduleRequired();
        }
      }
    }

    method SwitchToThis(t: nat)
      requires Valid() && t in tcbs
      modifies this`tcbs, this`links, this`heads, this`l1, this`l2, this`lists, this`cur
      ensures Valid() && Abs() == SwitchToThread(old(Abs()), t)
    {
      SchedDequeue(t);
      cur := t;
    }

    method ChooseThread()
      requires Valid() && Closed(Abs())
      modifies this`tcbs, this`links, this`heads, this`l1, this`l2, this`lists, this`cur
      ensures Valid() && Abs() == Scheduler.ChooseThread(old(Abs()))
    {
      EmptyBitmaps(l1, l2, lists);
      if l1 != {} {
        var prio := GetHighestPrio();
        var thread := heads[prio].head;
        assert ListAt(links, heads, lists, prio);
        assert thread == lists[prio][0] && thread != 0;
        SwitchToThis(thread);
      } else {
        SwitchToThis(idle);
      }
    }

    method Schedule()
      requires Valid() && SchedulerRuns.Inv(Abs())
      modifies this
      ensures Valid() && SchedulerRuns.Inv(Abs()) && Closed(old(Abs())) && Abs() == Scheduler.Schedule(old(Abs()))
    {
      SchedulerRuns.ScheduleKeeps(Abs());
      if action != ResumeCurrent {
        ScheduleNow();
      }
    }

    /** `schedule` with something to decide. */
    method ScheduleNow()
      requires Valid() && SchedulerRuns.Inv(Abs()) && action != ResumeCurrent
      modifies this
      ensures Valid() && Closed(old(Abs())) && Abs() == Scheduler.Schedule(old(Abs()))
    {
      hide SchedulerRuns.Inv, Represents, Closed, Enqueue, Scheduler.ChooseThread, Scheduler.TryCandidate;
      ParkedClosed(Abs());
      var wasRunnable := Park();
      Pick(wasRunnable);
      action := ResumeCurrent;
    }

    /** Puts the current thread back in its queue if it can run. */
    method Park() returns (wasRunnable: bool)
      requires Valid() && cur in tcbs
      modifies this`tcbs, this`links, this`heads, this`l1, this`l2, this`lists
      ensures Valid() && wasRunnable == old(Abs()).Runnable(cur)
      ensures Abs() == if wasRunnable then Enqueue(old(Abs()), cur) else old(Abs())
    {
      wasRunnable := IsRunnable(tcbs[cur].state);
      if wasRunnable {
        SchedEnqueue(cur);
      }
    }

    /** Chooses the next thread, afresh or starting from the candidate. */
    method Pick(wasRunnable: bool)
      requires Valid() && Closed(Abs()) && action != ResumeCurrent
      requires action.SwitchTo? ==> IsRunnable(tcbs[action.thread].state)
      modifies this
      ensures Valid() && Abs().(action := ResumeCurrent) ==
        (if old(action) == ChooseNew then Scheduler.ChooseThread(old(Abs()))
         else Scheduler.TryCandidate(old(Abs()), wasRunnable, old(action.thread))).(action := ResumeCurrent)
    {
      hide Represents, Scheduler.ChooseThread, Scheduler.TryCandidate;
      if action == ChooseNew {
        ChooseThread();
      } else {
        assert IsRunnable(tcbs[action.thread].state);
        TryCandidate(wasRunnable);
      }
    }

    /** Queues the candidate, at the front or at the back, and chooses afresh. */
    method ChooseWith(candidate: nat, front: bool)
      requires Valid() && Closed(Abs()) && candidate in tcbs
      modifies this`tcbs, this`links, this`heads, this`l1, this`l2, this`lists, this`cur
      ensures Valid()
      ensures var s := if front then Enqueue(old(Abs()), candidate) else Scheduler.Append(old(Abs()), candidate);
              Closed(s) && Abs() == Scheduler.ChooseThread(s)
    {
      if front {
        SchedEnqueue(candidate);
      } else {
        SchedAppend(candidate);
      }
      SchedulerRuns.InvClosed(Abs());
      ChooseThread();
    }

    method TryCandidate(wasRunnable: bool)
      requires Valid() && Closed(Abs()) && action.SwitchTo?
      modifies this`tcbs, this`links, this`heads, this`l1, this`l2, this`lists, this`cur, this`action
      ensures Valid()
      ensures Abs().(action := ResumeCurrent)
           == Scheduler.TryCandidate(old(Abs()), wasRunnable, old(action.thread)).(action := ResumeCurrent)
    {
      hide Represents;
      var candidate := action.thread;
      var prio := tcbs[candidate].prio;
      var fastfail := cur == idle || prio < tcbs[cur].prio;
      var highest := true;
      if fastfail {
        highest := IsHighestPrio(prio);
      }
      if fastfail && !highest {
        ChooseWith(candidate, true);
        action := ChooseNew;
      } else if wasRunnable && prio == tcbs[cur].prio {
        ChooseWith(candidate, false);
        action := ChooseNew;
      } else {
        SwitchToThis(candidate);
      }
    }
  }
}
