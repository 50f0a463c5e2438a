/** Endpoints and notifications (non-MCS build): who waits where, and what each operation
    does to the queues.  Scheduling and message copying are left to other models; the badge
    a thread receives is kept, as it is what a notification delivers. */
module Ipc {
  import opened Sequences
  import opened ThreadStates

  /** A badge or message identifier, as the set of its one bits. */
  type Bits = set<nat>

  datatype Thread = Thread(
    state: ThreadState, waitsOn: nat, badge: Bits, canGrant: bool, canGrantReply: bool, isCall: bool,
    register: Bits, bound: nat)

  datatype EpState = EpIdle | Send | Recv

  datatype NtfnState = NtfnIdle | Waiting | Active

  /** A kernel object threads wait for, with its queue from head to tail. */
  datatype Object =
    | Endpoint(epState: EpState, queue: seq<nat>)
    | Notification(ntfnState: NtfnState, queue: seq<nat>, msg: Bits, bound: nat)

  /** Objects and threads by address; 0 is the null pointer. */
  datatype State = State(objects: map<nat, Object>, threads: map<nat, Thread>)

  predicate Queueing(t: ThreadState) {
    t == BlockedOnSend || t == BlockedOnReceive || t == BlockedOnNotification
  }

  // ----- who waits where -----

  /** The state of the threads in the queue of `o`. */
  function WaitState(o: Object): ThreadState {
    match o
    case Endpoint(st, _) => if st == Send then BlockedOnSend else BlockedOnReceive
    case Notification(_, _, _, _) => BlockedOnNotification
  }

  predicate WaitsAt(s: State, t: nat, x: nat) {
    && x in s.objects && t in s.threads
    && s.threads[t].waitsOn == x && s.threads[t].state == WaitState(s.objects[x])
  }

  predicate StateFits(o: Object) {
    match o
    case Endpoint(st, q) => st == EpIdle <==> q == []
    case Notification(st, q, _, _) => st == Waiting <==> q != []
  }

  ghost predicate ObjectOk(s: State, x: nat)
    requires x in s.objects
  {
    var o := s.objects[x];
    && StateFits(o) && Distinct(o.queue)
    && (forall t :: t in o.queue ==> WaitsAt(s, t, x))
    && (o.Notification? && o.bound != 0 ==> o.bound in s.threads && s.threads[o.bound].bound == x)
  }

  predicate IsActive(s: State, n: nat) {
    n in s.objects && s.objects[n].Notification? && s.objects[n].ntfnState == Active
  }

  ghost predicate ThreadOk(s: State, t: nat)
    requires t in s.threads
  {
    var th := s.threads[t];
    && (Queueing(th.state) ==> th.waitsOn in s.objects && t in s.objects[th.waitsOn].queue)
    && (th.bound != 0 ==> th.bound in s.objects && s.objects[th.bound].Notification? && s.objects[th.bound].bound == t)
    && (th.state == BlockedOnReceive ==> !IsActive(s, th.bound))
  }

  /** An endpoint is idle and a notification not waiting exactly when its queue is empty; a
      queue holds just the threads blocked on that object in that way, once each; every
      blocked thread is in the queue of its object, so in no other; and nobody waits to
      receive while the notification bound to them has a signal for them. */
  ghost predicate Inv(s: State) {
    && 0 !in s.objects && 0 !in s.threads
    && (forall x {:trigger ObjectOk(s, x)} :: x in s.objects ==> ObjectOk(s, x))
    && (forall t {:trigger ThreadOk(s, t)} :: t in s.threads ==> ThreadOk(s, t))
  }

  predicate Unused(o: Object) { o == Endpoint(EpIdle, []) || o == Notification(NtfnIdle, [], {}, 0) }

  /** Objects as they are created: nobody waits, no signal is pending and nothing is bound. */
  ghost predicate Fresh(s: State)
    ensures Fresh(s) ==> Inv(s)
  {
    && 0 !in s.objects && 0 !in s.threads
    && (forall x :: x in s.objects ==> Unused(s.objects[x]))
    && (forall t :: t in s.threads ==> !Queueing(s.threads[t].state) && s.threads[t].bound == 0)
  }

  // ----- the operations -----

  function Shortened(o: Object, queue: seq<nat>): Object {
    match o
    case Endpoint(st, _) => Endpoint(if queue == [] then EpIdle else st, queue)
    case Notification(st, _, msg, bound) => Notification(if queue == [] then NtfnIdle else st, queue, msg, bound)
  }

  function Update(s: State, x: nat, o: Object, t: nat, th: Thread): State {
    State(s.objects[x := o], s.threads[t := th])
  }

  function SetThread(s: State, t: nat, th: Thread): State { s.(threads := s.threads[t := th]) }

  function SetObject(s: State, x: nat, o: Object): State { s.(objects := s.objects[x := o]) }

  /** After a call, the caller waits for the reply if it may get one. */
  function AfterCall(grant: bool, grantReply: bool): ThreadState {
    if grant || grantReply then BlockedOnReply else Inactive
  }

  predicate IsEndpoint(s: State, e: nat) { e in s.objects && s.objects[e].Endpoint? }

  predicate IsNotification(s: State, n: nat) { n in s.objects && s.objects[n].Notification? }

  /** The first in a non-empty queue is a thread. */
  predicate HeadOk(s: State, x: nat) {
    x in s.objects && (s.objects[x].queue != [] ==> s.objects[x].queue[0] in s.threads) && StateFits(s.objects[x])
  }

  /** `send_ipc`. */
  function SendIpc(s: State, e: nat, src: nat, blocking: bool, call: bool, grant: bool, badge: Bits, grantReply: bool): State
    requires IsEndpoint(s, e) && HeadOk(s, e) && src in s.threads
  {
    var ep := s.objects[e];
    if ep.epState != Recv then
      if !blocking then s
      else
        Update(s, e, Endpoint(Send, ep.queue + [src]), src,
               s.threads[src].(state := BlockedOnSend, waitsOn := e, canGrant := grant, badge := badge,
                               canGrantReply := grantReply, isCall := call))
    else
      var dest := ep.queue[0];
      var s1 := Update(s, e, Shortened(ep, ep.queue[1..]), dest, s.threads[dest].(register := badge, state := Running));
      if call then SetThread(s1, src, s1.threads[src].(state := AfterCall(grant, grantReply))) else s1
  }

  /** Whether `complete_signal` finds a signal. */
  predicate HasSignal(s: State, t: nat) { t in s.threads && IsActive(s, s.threads[t].bound) }

  /** `receive_ipc`, which first looks at the bound notification. */
  function ReceiveIpc(s: State, e: nat, t: nat, blocking: bool, grant: bool): State
    requires IsEndpoint(s, e) && HeadOk(s, e) && t in s.threads
  {
    var ep, th := s.objects[e], s.threads[t];
    if HasSignal(s, t) then
      var ntfn := s.objects[th.bound];
      Update(s, th.bound, ntfn.(ntfnState := NtfnIdle), t, th.(register := ntfn.msg))
    else if ep.epState != Send then
      if !blocking then SetThread(s, t, th.(register := {}))
      else Update(s, e, Endpoint(Recv, ep.queue + [t]), t, th.(waitsOn := e, canGrant := grant, state := BlockedOnReceive))
    else
      var sender := ep.queue[0];
      var sth := s.threads[sender];
      var st := if sth.isCall then AfterCall(sth.canGrant, sth.canGrantReply) else Running;
      var s1 := Update(s, e, Shortened(ep, ep.queue[1..]), sender, sth.(state := st));
      SetThread(s1, t, s1.threads[t].(register := sth.badge))
  }

  /** `cancel_ipc` of a thread; one waiting for a reply keeps its state. */
  function CancelIpc(s: State, t: nat): State
    requires t in s.threads && (Queueing(s.threads[t].state) ==> s.threads[t].waitsOn in s.objects)
  {
    var th := s.threads[t];
    if !Queueing(th.state) then s
    else Update(s, th.waitsOn, Shortened(s.objects[th.waitsOn], Without(s.objects[th.waitsOn].queue, t)), t, th.(state := Inactive))
  }

  /** Everyone in `woken` gets restarted. */
  function WakeAll(threads: map<nat, Thread>, woken: seq<nat>): map<nat, Thread> {
    map t | t in threads :: if t in woken then threads[t].(state := Restart) else threads[t]
  }

  /** `cancel_all_ipc` and `cacncel_all_signal`. */
  function CancelAll(s: State, x: nat): State
    requires x in s.objects
  {
    var o := s.objects[x];
    if (if o.Endpoint? then o.epState == EpIdle else o.ntfnState != Waiting) then s
    else State(s.objects[x := Shortened(o, [])], WakeAll(s.threads, o.queue))
  }

  /** The threads of a queue that did, or did not, send with this badge, in order. */
  function WithBadge(threads: map<nat, Thread>, q: seq<nat>, badge: Bits, matching: bool): seq<nat> {
    if q == [] then []
    else (if (q[0] in threads && threads[q[0]].badge == badge) == matching then [q[0]] else []) + WithBadge(threads, q[1..], badge, matching)
  }

  lemma {:induction false} WithBadgeMembers(threads: map<nat, Thread>, q: seq<nat>, badge: Bits, matching: bool, t: nat)
    ensures t in WithBadge(threads, q, badge, matching) <==> t in q && ((t in threads && threads[t].badge == badge) <==> matching)
  {
    if q != [] { WithBadgeMembers(threads, q[1..], badge, matching, t); }
  }

  /** `cancel_badged_sends`. */
  function CancelBadgedSends(s: State, e: nat, badge: Bits): State
    requires IsEndpoint(s, e)
  {
    var ep := s.objects[e];
    if ep.epState != Send then s
    else State(s.objects[e := Shortened(ep, WithBadge(s.threads, ep.queue, badge, false))],
               WakeAll(s.threads, WithBadge(s.threads, ep.queue, badge, true)))
  }

  /** Whether a signal to an idle notification goes straight to the bound thread. */
  predicate BoundReceives(s: State, n: nat)
    requires IsNotification(s, n)
  {
    s.objects[n].bound in s.threads && s.threads[s.objects[n].bound].state == BlockedOnReceive
  }

  /** `send_signal`. */
  function SendSignal(s: State, n: nat, badge: Bits): State
    requires IsNotification(s, n) && HeadOk(s, n)
    requires BoundReceives(s, n) ==> s.threads[s.objects[n].bound].waitsOn in s.objects
  {
    var ntfn := s.objects[n];
    match ntfn.ntfnState
    case NtfnIdle =>
      if BoundReceives(s, n) then
        var s1 := CancelIpc(s, ntfn.bound);
        SetThread(s1, ntfn.bound, s1.threads[ntfn.bound].(state := Running, register := badge))
      else SetObject(s, n, ntfn.(ntfnState := Active, msg := badge))
    case Waiting =>
      var dest := ntfn.queue[0];
      Update(s, n, Shortened(ntfn, ntfn.queue[1..]), dest, s.threads[dest].(state := Running, register := badge))
    case Active => SetObject(s, n, ntfn.(msg := ntfn.msg + badge))
  }

  /** `receive_signal`. */
  function ReceiveSignal(s: State, n: nat, t: nat, blocking: bool): State
    requires IsNotification(s, n) && t in s.threads
  {
    var ntfn, th := s.objects[n], s.threads[t];
    if ntfn.ntfnState == Active then Update(s, n, ntfn.(ntfnState := NtfnIdle), t, th.(register := ntfn.msg))
    else if !blocking then SetThread(s, t, th.(register := {}))
    else Update(s, n, ntfn.(ntfnState := Waiting, queue := ntfn.queue + [t]), t, th.(waitsOn := n, state := BlockedOnNotification))
  }

  // ----- changes that keep the invariant -----

  /** A change that leaves the bindings alone. */
  predicate SameBindings(s: State, s': State) {
    && s'.objects.Keys == s.objects.Keys && s'.threads.Keys == s.threads.Keys
    && (forall t :: t in s.threads ==> s'.threads[t].bound == s.threads[t].bound)
    && (forall x :: x in s.objects ==>
          s'.objects[x].Endpoint? == s.objects[x].Endpoint? && (s.objects[x].Notification? ==> s'.objects[x].bound == s.objects[x].bound))
  }

  /** Threads leave the queue of `x`, keeping the order of the others, and are not blocked. */
  lemma ReleaseKeeps(s: State, s': State, x: nat, rest: seq<nat>)
    requires Inv(s) && x in s.objects && SameBindings(s, s')
    requires Distinct(rest) && forall t :: t in rest ==> t in s.objects[x].queue
    requires s'.objects == s.objects[x := Shortened(s.objects[x], rest)]
    requires s.objects[x].queue != []
    requires forall t :: t in s.threads && (t !in s.objects[x].queue || t in rest) ==> s'.threads[t] == s.threads[t]
    requires forall t :: t in s.threads && t in s.objects[x].queue && t !in rest ==> !Queueing(s'.threads[t].state)
    ensures Inv(s')
  {
    assert ObjectOk(s, x);
    forall y | y in s'.objects ensures ObjectOk(s', y) {
      assert ObjectOk(s, y);
      forall t | t in s'.objects[y].queue ensures WaitsAt(s', t, y) { assert WaitsAt(s, t, y); }
    }
    forall t | t in s'.threads ensures ThreadOk(s', t) { assert ThreadOk(s, t); }
  }

  /** A thread that is not blocked joins the end of the queue of `x`. */
  lemma BlockKeeps(s: State, x: nat, o: Object, t: nat, th: Thread)
    requires Inv(s) && x in s.objects && t in s.threads && !Queueing(s.threads[t].state)
    requires SameBindings(s, Update(s, x, o, t, th)) && StateFits(o) && o.queue == s.objects[x].queue + [t]
    requires s.objects[x].queue != [] ==> WaitState(o) == WaitState(s.objects[x])
    requires th.waitsOn == x && th.state == WaitState(o)
    requires th.state == BlockedOnReceive ==> !IsActive(s, th.bound)
    ensures Inv(Update(s, x, o, t, th))
  {
    var s' := Update(s, x, o, t, th);
    assert ObjectOk(s, x) && ThreadOk(s, t);
    assert t !in s.objects[x].queue by { assert t in s.objects[x].queue ==> WaitsAt(s, t, x); }
    forall y | y in s'.objects ensures ObjectOk(s', y) {
      assert ObjectOk(s, y);
      forall u | u in s'.objects[y].queue ensures WaitsAt(s', u, y) {
        if u != t || y != x { assert WaitsAt(s, u, y); }
      }
    }
    forall u | u in s'.threads ensures ThreadOk(s', u) { assert ThreadOk(s, u); }
  }

  /** A thread in no queue changes, but stays unblocked. */
  lemma ThreadKeeps(s: State, t: nat, th: Thread)
    requires Inv(s) && t in s.threads && !Queueing(s.threads[t].state) && !Queueing(th.state) && th.bound == s.threads[t].bound
    ensures Inv(SetThread(s, t, th))
  {
    var s' := SetThread(s, t, th);
    forall y | y in s'.objects ensures ObjectOk(s', y) {
      assert ObjectOk(s, y);
      forall u | u in s'.objects[y].queue ensures WaitsAt(s', u, y) { assert WaitsAt(s, u, y); }
    }
    forall u | u in s'.threads ensures ThreadOk(s', u) { assert ThreadOk(s, u); }
  }

  /** The pending signal of a notification without waiters changes. */
  lemma PendingKeeps(s: State, n: nat, active: bool, msg: Bits)
    requires Inv(s) && IsNotification(s, n) && s.objects[n].ntfnState != Waiting
    requires active ==> !BoundReceives(s, n)
    ensures Inv(SetObject(s, n, s.objects[n].(ntfnState := if active then Active else NtfnIdle, msg := msg)))
  {
    var s' := SetObject(s, n, s.objects[n].(ntfnState := if active then Active else NtfnIdle, msg := msg));
    assert ObjectOk(s, n);
    forall y | y in s'.objects ensures ObjectOk(s', y) {
      assert ObjectOk(s, y);
      forall u | u in s'.objects[y].queue ensures WaitsAt(s', u, y) { assert WaitsAt(s, u, y); }
    }
    forall u | u in s'.threads ensures ThreadOk(s', u) { assert ThreadOk(s, u); }
  }
}
