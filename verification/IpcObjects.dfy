/** Endpoint and notification operations in place, on queues threaded through the threads:
    each does what it is specified to do to the waiting lists. */
module IpcObjects {
  import opened Ipc
  import opened IpcRuns
  import opened Sequences
  import opened ThreadStates
  import opened TcbQueue

  /** A kernel object as stored: its queue is the head and the tail of a linked list. */
  datatype Cell =
    | EpCell(epState: EpState, q: Queue)
    | NtfnCell(ntfnState: NtfnState, q: Queue, msg: Bits, bound: nat)

  function Abstract(c: Cell, queue: seq<nat>): Object {
    match c
    case EpCell(st, _) => Endpoint(st, queue)
    case NtfnCell(st, _, msg, bound) => Notification(st, queue, msg, bound)
  }

  ghost predicate CellOk(cells: map<nat, Cell>, links: Links, s: State, x: nat) {
    && x in cells && x in s.objects
    && s.objects[x] == Abstract(cells[x], s.objects[x].queue) && IsList(links, cells[x].q, s.objects[x].queue)
  }

  ghost predicate Represents(cells: map<nat, Cell>, threads: map<nat, Thread>, links: Links, s: State) {
    && Inv(s) && threads == s.threads && links.Keys == threads.Keys && cells.Keys == s.objects.Keys
    && (forall x {:trigger CellOk(cells, links, s, x)} :: x in cells ==> CellOk(cells, links, s, x))
  }

  /** The threads of another queue are not touched by changes to the queue of `x` and to
      threads that were in none. */
  lemma Requeued(cells: map<nat, Cell>, threads: map<nat, Thread>, links: Links, s: State,
                 x: nat, cell: Cell, links': Links, s': State, touched: seq<nat>)
    requires Represents(cells, threads, links, s) && x in cells && Inv(s')
    requires x in s'.objects && s'.objects == s.objects[x := Abstract(cell, s'.objects[x].queue)] && s'.threads.Keys == s.threads.Keys
    requires OnlyChanges(links, links', touched) && IsList(links', cell.q, s'.objects[x].queue)
    requires forall t :: t in touched ==> t in s.threads && (t in s.objects[x].queue || !Queueing(s.threads[t].state))
    ensures Represents(cells[x := cell], s'.threads, links', s')
  {
    forall y | y in cells ensures CellOk(cells[x := cell], links', s', y) {
      if y != x {
        assert CellOk(cells, links, s, y) && ObjectOk(s, y) && ObjectOk(s, x);
        var other := s.objects[y].queue;
        forall i | 0 <= i < |other| ensures other[i] !in touched {
          assert WaitsAt(s, other[i], y);
          assert other[i] in s.objects[x].queue ==> WaitsAt(s, other[i], x);
        }
        ListFrame(links, links', touched, cells[y].q, other);
      }
    }
  }

  lemma HeadOfCell(cells: map<nat, Cell>, threads: map<nat, Thread>, links: Links, s: State, x: nat)
    requires Represents(cells, threads, links, s) && x in cells
    ensures CellOk(cells, links, s, x) && HeadOk(s, x) && Distinct(s.objects[x].queue) && threads == s.threads
    ensures cells[x].q.head == 0 <==> s.objects[x].queue == []
    ensures s.objects[x].queue != [] ==> cells[x].q.head == s.objects[x].queue[0] && cells[x].q.head in threads
    ensures 0 !in s.objects[x].queue && forall t :: t in s.objects[x].queue ==> t in threads && Queueing(threads[t].state)
  {
    assert CellOk(cells, links, s, x) && ObjectOk(s, x);
    Heads(s, x);
    EndsInList(links, cells[x].q, s.objects[x].queue);
    forall t | t in s.objects[x].queue ensures t in threads && Queueing(threads[t].state) { assert WaitsAt(s, t, x); }
  }

  lemma {:induction false} WithBadgeGrows(threads: map<nat, Thread>, q: seq<nat>, t: nat, badge: Bits, matching: bool)
    ensures WithBadge(threads, q + [t], badge, matching)
         == WithBadge(threads, q, badge, matching) + (if (t in threads && threads[t].badge == badge) == matching then [t] else [])
  {
    if q == [] {
      assert [] + [t] == [t];
    } else {
      assert (q + [t])[1..] == q[1..] + [t];
      WithBadgeGrows(threads, q[1..], t, badge, matching);
    }
  }

  lemma CancelPlace(s: State, t: nat) returns (k: nat)
    requires Inv(s) && t in s.threads && Queueing(s.threads[t].state)
    ensures s.threads[t].waitsOn in s.objects
    ensures var q := s.objects[s.threads[t].waitsOn].queue; k < |q| && q[k] == t && Without(q, t) == Cut(q, k)
  {
    Waiters(s, t);
    assert ObjectOk(s, s.threads[t].waitsOn);
    var q := s.objects[s.threads[t].waitsOn].queue;
    k :| 0 <= k < |q| && q[k] == t;
    WithoutIsCut(q, k);
  }

  lemma WakeOne(threads: map<nat, Thread>, woken: seq<nat>, t: nat)
    requires t in threads
    ensures t in WakeAll(threads, woken)
    ensures var w := WakeAll(threads, woken); w[t := w[t].(state := Restart)] == WakeAll(threads, woken + [t])
  {
  }

  lemma WakeNone(threads: map<nat, Thread>)
    ensures WakeAll(threads, []) == threads
  {
  }

  lemma FirstInList(links: Links, q: Queue, s: seq<nat>)
    requires IsList(links, q, s)
    ensures q.head == if s == [] then 0 else s[0]
  {
  }

  /** Following the link of the thread at `k`. */
  lemma NextInList(links: Links, q: Queue, s: seq<nat>, k: nat)
    requires IsList(links, q, s) && k < |s|
    ensures s[k] in links && s[k] != 0 && links[s[k]].next == if k + 1 < |s| then s[k + 1] else 0
  {
    assert Linked(links, s, k);
  }

  lemma {:induction false} BadgeSplits(threads: map<nat, Thread>, s: seq<nat>, i: nat, badge: Bits)
    requires i < |s| && s[i] in threads
    ensures var hit := threads[s[i]].badge == badge;
      && WithBadge(threads, s[..i + 1], badge, true) == WithBadge(threads, s[..i], badge, true) + (if hit then [s[i]] else [])
      && WithBadge(threads, s[..i + 1], badge, false) == WithBadge(threads, s[..i], badge, false) + (if hit then [] else [s[i]])
  {
    assert s[..i + 1] == s[..i] + [s[i]];
    WithBadgeGrows(threads, s[..i], s[i], badge, true);
    WithBadgeGrows(threads, s[..i], s[i], badge, false);
  }

  /** The list `s` with its first `i` threads looked at: those with the badge are out of the
      list and restarted. */
  ghost predicate Halfway(links: Links, threads: map<nat, Thread>, s: seq<nat>, badge: Bits, i: nat,
                          links': Links, q: Queue, threads': map<nat, Thread>)
    requires i <= |s|
  {
    && IsList(links', q, WithBadge(threads, s[..i], badge, false) + s[i..]) && OnlyChanges(links, links', s)
    && threads' == WakeAll(threads, WithBadge(threads, s[..i], badge, true))
  }

  lemma HalfwayStart(links: Links, threads: map<nat, Thread>, s: seq<nat>, badge: Bits, q: Queue)
    requires IsList(links, q, s)
    ensures Halfway(links, threads, s, badge, 0, links, q, threads)
    ensures q.head == if s == [] then 0 else s[0]
  {
    FirstInList(links, q, s);
    WakeNone(threads);
    assert s[..0] == [];
    assert WithBadge(threads, s[..0], badge, false) + s[0..] == s && WithBadge(threads, s[..0], badge, true) == [];
    hide IsList, WakeAll, WithBadge;
  }

  lemma {:induction false} HalfwayEnd(links: Links, threads: map<nat, Thread>, s: seq<nat>, badge: Bits,
                   links': Links, q: Queue, threads': map<nat, Thread>)
    requires Halfway(links, threads, s, badge, |s|, links', q, threads')
    ensures IsList(links', q, WithBadge(threads, s, badge, false)) && OnlyChanges(links, links', s)
    ensures threads' == WakeAll(threads, WithBadge(threads, s, badge, true))
  {
    var kept := WithBadge(threads, s, badge, false);
    assert s[..|s|] == s && kept + s[|s|..] == kept;
  }

  /** The next thread is linked to the one after it, and its badge has not changed. */
  lemma HalfwayNext(links: Links, threads: map<nat, Thread>, s: seq<nat>, badge: Bits, i: nat,
                    links': Links, q: Queue, threads': map<nat, Thread>)
    requires i < |s| && Halfway(links, threads, s, badge, i, links', q, threads') && s[i] in threads
    ensures s[i] in links' && links'[s[i]].next == (if i + 1 < |s| then s[i + 1] else 0)
    ensures s[i] in threads' && threads'[s[i]].badge == threads[s[i]].badge
  {
    var kept := WithBadge(threads, s[..i], badge, false);
    NextInList(links', q, kept + s[i..], |kept|);
  }

  lemma HalfwayKeep(links: Links, threads: map<nat, Thread>, s: seq<nat>, badge: Bits, i: nat,
                    links': Links, q: Queue, threads': map<nat, Thread>)
    requires i < |s| && Halfway(links, threads, s, badge, i, links', q, threads')
    requires s[i] in threads && threads[s[i]].badge != badge
    ensures Halfway(links, threads, s, badge, i + 1, links', q, threads')
  {
    BadgeSplits(threads, s, i, badge);
    var kept := WithBadge(threads, s[..i], badge, false);
    assert kept + s[i..] == kept + [s[i]] + s[i + 1..];
  }

  /** Taking the next thread out of the list. */
  method Unhook(ghost links: Links, ghost threads: map<nat, Thread>, ghost s: seq<nat>, ghost badge: Bits, ghost i: nat,
                links': Links, q: Queue, ghost threads': map<nat, Thread>, t: nat)
    returns (links'': Links, q': Queue)
    requires i < |s| && Halfway(links, threads, s, badge, i, links', q, threads')
    requires s[i] == t && t in threads && t in threads' && threads[t].badge == badge
    ensures Halfway(links, threads, s, badge, i + 1, links'', q', threads'[t := threads'[t].(state := Restart)])
  {
    ghost var kept := WithBadge(threads, s[..i], badge, false);
    ghost var cur := kept + s[i..];
    links'', q' := EpDequeue(links', q, t, cur, |kept|);
    BadgeSplits(threads, s, i, badge);
    WakeOne(threads, WithBadge(threads, s[..i], badge, true), t);
    assert kept + [] == kept;
    assert Cut(cur, |kept|) == kept + s[i + 1..];
    forall u | u in Cut(cur, |kept|) ensures u in s {
      WithBadgeMembers(threads, s[..i], badge, false, u);
    }
  }

  class Objects {
    var cells: map<nat, Cell>
    var threads: map<nat, Thread>
    var links: Links  // tcbEPPrev and tcbEPNext
    ghost var abs: State

    ghost predicate Valid()
      reads this
    {
      Represents(cells, threads, links, abs)
    }

    /** New objects and threads. */
    constructor (objects: map<nat, Object>, threads: map<nat, Thread>)
      requires Fresh(State(objects, threads))
      ensures Valid() && abs == State(objects, threads)
    {
      cells := map x | x in objects :: if objects[x].Endpoint? then EpCell(EpIdle, EMPTY) else NtfnCell(NtfnIdle, EMPTY, {}, 0);
      this.threads := threads;
      links := map t | t in threads :: UNLINKED;
      abs := State(objects, threads);
    }

    /** `bind_tcb` and `bind_notification`. */
    method BindNotification(n: nat, t: nat)
      requires Valid() && Enabled(abs, Bind(n, t))
      modifies this
      ensures Valid() && abs == Next(old(abs), Bind(n, t))
    {
      BindKeeps(abs, n, t);
      HeadOfCell(cells, threads, links, abs, n);
      var cell := cells[n].(bound := t);
      Requeued(cells, threads, links, abs, n, cell, links, Next(abs, Bind(n, t)), []);
      cells := cells[n := cell];
      threads := threads[t := threads[t].(bound := n)];
      abs := Next(abs, Bind(n, t));
    }

    /** `safe_unbind_tcb`. */
    method SafeUnbindTcb(n: nat)
      requires Valid() && Enabled(abs, Unbind(n))
      modifies this
      ensures Valid() && abs == Next(old(abs), Unbind(n))
    {
      UnbindKeeps(abs, n);
      HeadOfCell(cells, threads, links, abs, n);
      assert ObjectOk(abs, n);
      var tcb, cell := cells[n].bound, cells[n].(bound := 0);
      Requeued(cells, threads, links, abs, n, cell, links, Next(abs, Unbind(n)), []);
      cells := cells[n := cell];
      if tcb != 0 {
        threads := threads[tcb := threads[tcb].(bound := 0)];
      }
      abs := Next(abs, Unbind(n));
    }

    /** `ep_dequeue` and storing the queue; the object becomes idle when its queue is empty. */
    method DequeueFrom(x: nat, t: nat, ghost k: nat, ghost s': State)
      requires Valid() && x in cells && k < |abs.objects[x].queue| && abs.objects[x].queue[k] == t && Inv(s')
      requires s'.objects == abs.objects[x := Shortened(abs.objects[x], Cut(abs.objects[x].queue, k))]
      requires s'.threads.Keys == abs.threads.Keys
      modifies this`cells, this`links
      ensures Represents(cells, s'.threads, links, s')
    {
      hide Inv, Represents;
      HeadOfCell(cells, threads, links, abs, x);
      ghost var s := abs.objects[x].queue;
      CutMembers(s, k);
      var links', q := EpDequeue(links, cells[x].q, t, s, k);
      EndsInList(links', q, Cut(s, k));
      var cell := cells[x].(q := q);
      if q.head == 0 {
        cell := if cell.EpCell? then cell.(epState := EpIdle) else cell.(ntfnState := NtfnIdle);
      }
      Requeued(cells, threads, links, abs, x, cell, links', s', Cut(s, k));
      cells := cells[x := cell];
      links := links';
    }

    /** Takes the first thread out of the queue of `x`. */
    method DequeueHead(x: nat, ghost s': State) returns (t: nat)
      requires Valid() && x in cells && abs.objects[x].queue != [] && Inv(s')
      requires s'.objects == abs.objects[x := Shortened(abs.objects[x], abs.objects[x].queue[1..])]
      requires s'.threads.Keys == abs.threads.Keys
      modifies this`cells, this`links
      ensures t == old(abs.objects[x].queue[0]) && t in threads && Represents(cells, s'.threads, links, s')
    {
      hide Inv;
      HeadOfCell(cells, threads, links, abs, x);
      ghost var s := abs.objects[x].queue;
      assert Cut(s, 0) == s[1..];
      t := cells[x].q.head;
      DequeueFrom(x, t, 0, s');
    }

    method SendIpc(e: nat, src: nat, blocking: bool, call: bool, grant: bool, badge: Bits, grantReply: bool)
      requires Valid() && Enabled(abs, SendTo(e, src, blocking, call, grant, badge, grantReply))
      modifies this
      ensures Valid() && abs == Next(old(abs), SendTo(e, src, blocking, call, grant, badge, grantReply))
    {
      HeadOfCell(cells, threads, links, abs, e);
      SendKeeps(abs, SendTo(e, src, blocking, call, grant, badge, grantReply));
      ghost var s' := Next(abs, SendTo(e, src, blocking, call, grant, badge, grantReply));
      if cells[e].epState != Recv {
        if blocking {
          BlockOn(e, src, EpCell(Send, EMPTY), s');
          threads := threads[src := threads[src].(state := BlockedOnSend, waitsOn := e, canGrant := grant, badge := badge,
                                                  canGrantReply := grantReply, isCall := call)];
        }
      } else {
        var dest := DequeueHead(e, s');
        threads := threads[dest := threads[dest].(register := badge, state := Running)];
        if call {
          threads := threads[src := threads[src].(state := AfterCall(grant, grantReply))];
        }
      }
      abs := s';
    }

    /** Appends `t` to the queue of `x`, whose cell becomes `cell` with the longer queue. */
    method BlockOn(x: nat, t: nat, cell: Cell, ghost s': State)
      requires Valid() && x in cells && Inv(s') && t in threads && !Queueing(threads[t].state)
      requires s'.objects == abs.objects[x := Abstract(cell, abs.objects[x].queue + [t])]
      requires s'.threads.Keys == abs.threads.Keys
      modifies this`cells, this`links
      ensures Represents(cells, s'.threads, links, s')
    {
      HeadOfCell(cells, threads, links, abs, x);
      ghost var s := abs.objects[x].queue;
      var links', q := EpAppend(links, cells[x].q, t, s);
      Requeued(cells, threads, links, abs, x, cell.(q := q), links', s', s + [t]);
      cells := cells[x := cell.(q := q)];
      links := links';
    }

    method ReceiveIpc(e: nat, t: nat, blocking: bool, grant: bool)
      requires Valid() && Enabled(abs, ReceiveFrom(e, t, blocking, grant))
      modifies this
      ensures Valid() && abs == Next(old(abs), ReceiveFrom(e, t, blocking, grant))
    {
      hide IsList, Inv;
      HeadOfCell(cells, threads, links, abs, e);
      ReceiveKeeps(abs, ReceiveFrom(e, t, blocking, grant));
      ghost var s' := Next(abs, ReceiveFrom(e, t, blocking, grant));
      var completed := CompleteSignal(t, s');
      if !completed {
        if cells[e].epState != Send {
          if blocking {
            BlockOn(e, t, EpCell(Recv, EMPTY), s');
            threads := threads[t := threads[t].(waitsOn := e, canGrant := grant, state := BlockedOnReceive)];
          } else {
            threads := threads[t := threads[t].(register := {})];
            Rethreaded(cells, abs.threads, links, abs, s');
          }
        } else {
          ReceiveFromSender(e, t, blocking, grant, s');
        }
      }
      abs := s';
    }

    /** The case of `receive_ipc` that finds a sender waiting. */
    method ReceiveFromSender(e: nat, t: nat, blocking: bool, grant: bool, ghost s': State)
      requires Valid() && Enabled(abs, ReceiveFrom(e, t, blocking, grant)) && Inv(s')
      requires s' == Next(abs, ReceiveFrom(e, t, blocking, grant)) && !HasSignal(abs, t) && abs.objects[e].epState == Send
      modifies this`cells, this`links, this`threads
      ensures Represents(cells, threads, links, s')
    {
      HeadOfCell(cells, threads, links, abs, e);
      hide IsList, Inv;
      var sender := DequeueHead(e, s');
      var sth := threads[sender];
      threads := threads[t := threads[t].(register := sth.badge)];
      if sth.isCall {
        threads := threads[sender := threads[sender].(state := AfterCall(sth.canGrant, sth.canGrantReply))];
      } else {
        threads := threads[sender := threads[sender].(state := Running)];
      }
    }

    /** `complete_signal`. */
    method CompleteSignal(t: nat, ghost s': State) returns (done: bool)
      requires Valid() && t in threads && Inv(s')
      requires HasSignal(abs, t) ==>
        var n := threads[t].bound;
        s' == Update(abs, n, abs.objects[n].(ntfnState := NtfnIdle), t, threads[t].(register := abs.objects[n].msg))
      modifies this`cells, this`threads
      ensures done == HasSignal(abs, t)
      ensures if done then Represents(cells, threads, links, s') else cells == old(cells) && threads == old(threads)
    {
      assert ThreadOk(abs, t);
      var n := threads[t].bound;
      if n != 0 {
        HeadOfCell(cells, threads, links, abs, n);
        if cells[n].ntfnState == Active {
          ghost var was := cells;
          threads := threads[t := threads[t].(register := cells[n].msg)];
          cells := cells[n := cells[n].(ntfnState := NtfnIdle)];
          Requeued(was, abs.threads, links, abs, n, cells[n], links, s', []);
          return true;
        }
      }
      return false;
    }

    /** `cancel_ipc` of a thread, by way of the object it waits for. */
    method CancelIpc(t: nat)
      requires Valid() && t in threads
      modifies this
      ensures Valid() && abs == Next(old(abs), Cancel(t))
    {
      CancelKeeps(abs, t);
      ghost var s' := Next(abs, Cancel(t));
      if Queueing(threads[t].state) {
        var x := threads[t].waitsOn;
        ghost var k := CancelPlace(abs, t);
        hide Inv;
        DequeueFrom(x, t, k, s');
        threads := threads[t := threads[t].(state := Inactive)];
        abs := s';
      }
    }

    /** `cancel_all_ipc` and `cacncel_all_signal`: the queue is emptied, and its old threads
        are still linked while they are restarted. */
    method CancelAllWaiting(x: nat)
      requires Valid() && x in cells
      modifies this
      ensures Valid() && abs == Next(old(abs), CancelEverything(x))
    {
      HeadOfCell(cells, threads, links, abs, x);
      CancelAllKeeps(abs, x);
      ghost var s' := Next(abs, CancelEverything(x));
      if (if cells[x].EpCell? then cells[x].epState == EpIdle else cells[x].ntfnState != Waiting) { return; }
      ghost var q := abs.objects[x].queue;
      var first := cells[x].q.head;
      ghost var was := cells;
      if cells[x].EpCell? {
        cells := cells[x := cells[x].(epState := EpIdle, q := EMPTY)];
      } else {
        cells := cells[x := cells[x].(ntfnState := NtfnIdle, q := EMPTY)];
      }
      Requeued(was, abs.threads, links, abs, x, cells[x], links, s', []);
      RestartAll(first, q);
      abs := s';
    }

    method RestartAll(first: nat, ghost q: seq<nat>)
      requires IsList(links, Queue(first, if q == [] then 0 else q[|q| - 1]), q)
      requires 0 !in q && forall u :: u in q ==> u in threads
      modifies this`threads
      ensures threads == WakeAll(old(threads), q)
    {
      hide IsList, WakeAll;
      var t := first;
      ghost var i := 0;
      FirstInList(links, Queue(first, if q == [] then 0 else q[|q| - 1]), q);
      WakeNone(threads);
      while t != 0
        invariant 0 <= i <= |q| && t == (if i < |q| then q[i] else 0)
        invariant threads == WakeAll(old(threads), q[..i])
        decreases |q| - i
      {
        NextInList(links, Queue(first, q[|q| - 1]), q, i);
        WakeOne(old(threads), q[..i], t);
        threads := threads[t := threads[t].(state := Restart)];
        assert q[..i + 1] == q[..i] + [t];
        t := links[t].next;
        i := i + 1;
      }
      assert q[..i] == q;
    }

    method CancelBadgedSends(e: nat, badge: Bits)
      requires Valid() && IsEndpoint(abs, e)
      modifies this
      ensures Valid() && abs == Next(old(abs), CancelBadged(e, badge))
    {
      hide Inv, IsList, WithBadge;
      HeadOfCell(cells, threads, links, abs, e);
      CancelBadgedKeeps(abs, e, badge);
      ghost var s' := Next(abs, CancelBadged(e, badge));
      if cells[e].epState == Send {
        ghost var s, was, linksWas := abs.objects[e].queue, cells, links;
        var q := cells[e].q;
        cells := cells[e := EpCell(EpIdle, EMPTY)];
        q := RestartBadged(q, badge, s);
        EndsInList(links, q, WithBadge(abs.threads, s, badge, false));
        var cell := EpCell(if q.head != 0 then Send else EpIdle, q);
        cells := cells[e := cell];
        assert cells == was[e := cell];
        Requeued(was, abs.threads, linksWas, abs, e, cell, links, s', s);
        abs := s';
      }
    }

    /** The loop of `cancel_badged_sends`, which takes threads out of the list it follows. */
    method RestartBadged(all: Queue, badge: Bits, ghost s: seq<nat>) returns (q: Queue)
      requires IsList(links, all, s) && 0 !in s && forall t :: t in s ==> t in threads
      modifies this`threads, this`links
      ensures IsList(links, q, WithBadge(old(threads), s, badge, false)) && OnlyChanges(old(links), links, s)
      ensures threads == WakeAll(old(threads), WithBadge(old(threads), s, badge, true))
    {
      hide IsList, WakeAll, WithBadge, Halfway;
      q := all;
      var t := q.head;
      ghost var i := 0;
      HalfwayStart(links, threads, s, badge, q);
      while t != 0
        invariant 0 <= i <= |s| && t == (if i < |s| then s[i] else 0)
        invariant Halfway(old(links), old(threads), s, badge, i, links, q, threads)
        decreases |s| - i
      {
        HalfwayNext(old(links), old(threads), s, badge, i, links, q, threads);
        var u := t;
        t := links[u].next;
        if threads[u].badge == badge {
          links, q := Unhook(old(links), old(threads), s, badge, i, links, q, threads, u);
          threads := threads[u := threads[u].(state := Restart)];
        } else {
          HalfwayKeep(old(links), old(threads), s, badge, i, links, q, threads);
        }
        i := i + 1;
      }
      HalfwayEnd(old(links), old(threads), s, badge, links, q, threads);
    }

    method SendSignal(n: nat, badge: Bits)
      requires Valid() && IsNotification(abs, n)
      modifies this
      ensures Valid() && abs == Next(old(abs), Signal(n, badge))
    {
      HeadOfCell(cells, threads, links, abs, n);
      SignalKeeps(abs, n, badge);
      ghost var s' := Next(abs, Signal(n, badge));
      match cells[n].ntfnState {
        case NtfnIdle =>
          var t := cells[n].bound;
          assert ObjectOk(abs, n);
          if t != 0 && threads[t].state == BlockedOnReceive {
            CancelIpc(t);
            threads := threads[t := threads[t].(state := Running, register := badge)];
            Rethreaded(cells, abs.threads, links, abs, s');
          } else {
            Requeued(cells, threads, links, abs, n, cells[n].(ntfnState := Active, msg := badge), links, s', []);
            cells := cells[n := cells[n].(ntfnState := Active, msg := badge)];
          }
        case Waiting =>
          var dest := DequeueHead(n, s');
          threads := threads[dest := threads[dest].(state := Running, register := badge)];
        case Active =>
          Requeued(cells, threads, links, abs, n, cells[n].(msg := cells[n].msg + badge), links, s', []);
          cells := cells[n := cells[n].(msg := cells[n].msg + badge)];
      }
      abs := s';
    }

    method ReceiveSignal(n: nat, t: nat, blocking: bool)
      requires Valid() && Enabled(abs, WaitFor(n, t, blocking))
      modifies this
      ensures Valid() && abs == Next(old(abs), WaitFor(n, t, blocking))
    {
      HeadOfCell(cells, threads, links, abs, n);
      WaitKeeps(abs, WaitFor(n, t, blocking));
      ghost var s' := Next(abs, WaitFor(n, t, blocking));
      if cells[n].ntfnState != Active {
        if blocking {
          BlockOn(n, t, cells[n].(ntfnState := Waiting), s');
          threads := threads[t := threads[t].(waitsOn := n, state := BlockedOnNotification)];
        } else {
          threads := threads[t := threads[t].(register := {})];
          Rethreaded(cells, abs.threads, links, abs, s');
        }
      } else {
        Requeued(cells, threads, links, abs, n, cells[n].(ntfnState := NtfnIdle), links, s', []);
        threads := threads[t := threads[t].(register := cells[n].msg)];
        cells := cells[n := cells[n].(ntfnState := NtfnIdle)];
      }
      abs := s';
    }
  }

  /** A change to threads alone. */
  lemma Rethreaded(cells: map<nat, Cell>, threads: map<nat, Thread>, links: Links, s: State, s': State)
    requires Represents(cells, threads, links, s) && Inv(s') && s'.objects == s.objects && s'.threads.Keys == s.threads.Keys
    ensures Represents(cells, s'.threads, links, s')
  {
    forall x | x in cells ensures CellOk(cells, links, s', x) { assert CellOk(cells, links, s, x); }
  }
}
