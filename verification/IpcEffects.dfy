/** What each endpoint and notification operation does, down to the threads and objects it leaves
    alone; and how a waiting thread is served. */
module IpcEffects {
  import opened Ipc
  import opened IpcRuns
  import opened Sequences
  import opened ThreadStates

  /** The thread that has waited longest at `x`, or 0. */
  function First(s: State, x: nat): nat
    requires x in s.objects
  {
    if s.objects[x].queue == [] then 0 else s.objects[x].queue[0]
  }

  /** Nothing changes but the object `x` and the threads in `ts`. */
  ghost predicate Only(s: State, s': State, x: nat, ts: set<nat>) {
    && s'.objects.Keys == s.objects.Keys && s'.threads.Keys == s.threads.Keys
    && (forall y :: y in s.objects && y != x ==> s'.objects[y] == s.objects[y])
    && (forall t :: t in s.threads && t !in ts ==> s'.threads[t] == s.threads[t])
  }

  /** Thread `t` has another state, and is otherwise as before. */
  ghost predicate NewState(s: State, s': State, t: nat, state: ThreadState)
  {
    t in s.threads && t in s'.threads && s'.threads[t] == s.threads[t].(state := state)
  }

  /** Thread `t` has another state and has received `badge`. */
  ghost predicate Received(s: State, s': State, t: nat, state: ThreadState, badge: Bits)
  {
    t in s.threads && t in s'.threads && s'.threads[t] == s.threads[t].(state := state, register := badge)
  }

  /** The first `x` had in its queue has left it; an object without a queue is idle. */
  ghost predicate FirstLeft(s: State, s': State, x: nat)
  {
    && x in s.objects && s.objects[x].queue != [] && x in s'.objects && s'.objects[x].queue == s.objects[x].queue[1..] && StateFits(s'.objects[x])
    && (s'.objects[x].queue != [] ==> WaitState(s'.objects[x]) == WaitState(s.objects[x]))
    && s'.objects[x].Endpoint? == s.objects[x].Endpoint?
    && (s.objects[x].Notification? ==> s'.objects[x].bound == s.objects[x].bound && s'.objects[x].ntfnState != Active)
  }

  /** Sending goes to the thread that has waited longest; the sender goes on, or waits for the reply
      to its call.  Without a receiver the sender waits with its message, or nothing happens. */
  lemma SendExactly(s: State, step: Step)
    requires Inv(s) && step.SendTo? && Enabled(s, step)
    ensures var s', e, t, ep, d := Next(s, step), step.e, step.t, s.objects[step.e], First(s, step.e);
      if ep.epState == Recv then
        && d != t && Only(s, s', e, {t, d}) && FirstLeft(s, s', e) && Received(s, s', d, Running, step.badge)
        && NewState(s, s', t, if !step.call then s.threads[t].state else if step.grant || step.grantReply then BlockedOnReply else Inactive)
      else if step.blocking then
        && Only(s, s', e, {t}) && s'.objects[e] == Endpoint(Send, ep.queue + [t])
        && s'.threads[t] == s.threads[t].(state := BlockedOnSend, waitsOn := e, badge := step.badge,
                                          canGrant := step.grant, canGrantReply := step.grantReply, isCall := step.call)
      else s' == s
  {
    Heads(s, step.e);
    assert ObjectOk(s, step.e);
    if s.objects[step.e].epState == Recv { assert WaitsAt(s, s.objects[step.e].queue[0], step.e); }
  }

  /** Receiving takes a pending signal, else the message of the sender that has waited longest, who
      goes on or waits for the reply; else the receiver waits, or gets nothing. */
  lemma ReceiveExactly(s: State, step: Step)
    requires Inv(s) && step.ReceiveFrom? && Enabled(s, step)
    ensures var s', e, t, ep, d := Next(s, step), step.e, step.t, s.objects[step.e], First(s, step.e);
      if HasSignal(s, t) then
        var n := s.threads[t].bound;
        && Only(s, s', n, {t}) && Received(s, s', t, s.threads[t].state, s.objects[n].msg)
        && s'.objects[n] == s.objects[n].(ntfnState := NtfnIdle)
      else if ep.epState == Send then
        && d != t && d in s.threads && Only(s, s', e, {t, d}) && FirstLeft(s, s', e)
        && Received(s, s', t, s.threads[t].state, s.threads[d].badge)
        && NewState(s, s', d, if !s.threads[d].isCall then Running else if s.threads[d].canGrant || s.threads[d].canGrantReply then BlockedOnReply else Inactive)
      else if step.blocking then
        && Only(s, s', e, {t}) && s'.objects[e] == Endpoint(Recv, ep.queue + [t])
        && s'.threads[t] == s.threads[t].(state := BlockedOnReceive, waitsOn := e, canGrant := step.grant)
      else Only(s, s', 0, {t}) && Received(s, s', t, s.threads[t].state, {})
  {
    Heads(s, step.e);
    assert ObjectOk(s, step.e);
    if s.objects[step.e].epState == Send { assert WaitsAt(s, s.objects[step.e].queue[0], step.e); }
  }

  /** Cancelling takes the thread out of the queue it waits in and stops it; one that waits in none
      is left alone. */
  lemma {:induction false} CancelExactly(s: State, t: nat)
    requires Inv(s) && t in s.threads
    ensures var s', x := Next(s, Cancel(t)), s.threads[t].waitsOn;
      if Queueing(s.threads[t].state) then
        && x in s.objects && Only(s, s', x, {t}) && NewState(s, s', t, Inactive)
        && s'.objects[x] == Shortened(s.objects[x], Without(s.objects[x].queue, t)) && StateFits(s'.objects[x])
      else s' == s
  {
    assert ThreadOk(s, t);
    if Queueing(s.threads[t].state) {
      assert ObjectOk(s, s.threads[t].waitsOn);
      assert s.objects[s.threads[t].waitsOn].queue != [];
    }
  }

  /** Cancelling everything at an object restarts exactly the threads in its queue and empties it;
      a pending signal stays. */
  lemma CancelAllExactly(s: State, x: nat)
    requires Inv(s) && x in s.objects
    ensures var s', q := Next(s, CancelEverything(x)), s.objects[x].queue;
      && Only(s, s', x, set t | t in q) && s'.objects[x].queue == [] && StateFits(s'.objects[x])
      && (forall t :: t in q ==> t in s.threads && NewState(s, s', t, Restart))
      && (s.objects[x].Endpoint? ==> s'.objects[x] == Endpoint(EpIdle, []))
      && (s.objects[x].Notification? ==> Pending(s', x) == Pending(s, x) && s'.objects[x].bound == s.objects[x].bound)
  {
    assert ObjectOk(s, x);
    forall t | t in s.objects[x].queue ensures t in s.threads { assert WaitsAt(s, t, x); }
  }

  /** A signal goes to the bound thread if it waits to receive, else to the thread that has waited
      longest for the notification, else it is kept, together with those kept before. */
  lemma SignalExactly(s: State, n: nat, badge: Bits)
    requires Inv(s) && IsNotification(s, n)
    ensures var s', ntfn, d := Next(s, Signal(n, badge)), s.objects[n], First(s, n);
      if ntfn.ntfnState == NtfnIdle && BoundReceives(s, n) then
        var x := s.threads[ntfn.bound].waitsOn;
        && x in s.objects && Only(s, s', x, {ntfn.bound}) && Received(s, s', ntfn.bound, Running, badge)
        && s'.objects[x] == Shortened(s.objects[x], Without(s.objects[x].queue, ntfn.bound))
      else if ntfn.ntfnState == Waiting then
        Only(s, s', n, {d}) && FirstLeft(s, s', n) && Received(s, s', d, Running, badge)
      else
        Only(s, s', n, {}) && s'.objects[n] == ntfn.(ntfnState := Active, msg := Pending(s, n) + badge)
  {
    Heads(s, n);
    assert ObjectOk(s, n);
    if s.objects[n].bound in s.threads { assert ThreadOk(s, s.objects[n].bound); }
    assert {} + badge == badge;
  }

  /** Waiting for a signal takes what is pending; else the thread waits, or gets nothing. */
  lemma WaitExactly(s: State, step: Step)
    requires Inv(s) && step.WaitFor? && Enabled(s, step)
    ensures var s', n, t := Next(s, step), step.n, step.t; var ntfn := s.objects[n];
      if ntfn.ntfnState == Active then
        Only(s, s', n, {t}) && Received(s, s', t, s.threads[t].state, ntfn.msg) && s'.objects[n] == ntfn.(ntfnState := NtfnIdle)
      else if step.blocking then
        && Only(s, s', n, {t}) && s'.objects[n] == ntfn.(ntfnState := Waiting, queue := ntfn.queue + [t])
        && s'.threads[t] == s.threads[t].(state := BlockedOnNotification, waitsOn := n)
      else Only(s, s', 0, {t}) && Received(s, s', t, s.threads[t].state, {})
  {
  }

  /** Binding and unbinding undo each other. */
  lemma UnbindUndoesBind(s: State, n: nat, t: nat)
    requires Inv(s) && CanBind(s, n, t) && SafeToBind(s, n, t)
    ensures var s' := Next(s, Bind(n, t));
      && Inv(s') && IsNotification(s', n) && s'.objects[n].bound == t && t in s'.threads && s'.threads[t].bound == n
      && Next(s', Unbind(n)) == s
  {
    BindKeeps(s, n, t);
    var s' := Next(s, Bind(n, t));
    assert Next(s', Unbind(n)).objects == s.objects;
    assert Next(s', Unbind(n)).threads == s.threads;
  }

  // ----- how a waiting thread is served -----

  /** A sender that leaves its queue without being cancelled has been received from: the receiver
      has its badge. */
  lemma SenderServed(s: State, step: Step, e: nat, t: nat)
    requires Inv(s) && Enabled(s, step) && IsEndpoint(s, e) && t in s.objects[e].queue && s.objects[e].epState == Send
    requires t in s.threads && !Cancelled(s, step, t)
    ensures var s' := Next(s, step);
      && e in s'.objects
      && (t !in s'.objects[e].queue ==> step.ReceiveFrom? && step.e == e && step.t in s'.threads && s'.threads[step.t].register == s.threads[t].badge)
  {
    assert ObjectOk(s, e) && WaitsAt(s, t, e);
    ServedInOrder(s, step, e, t);
    match step {
      case ReceiveFrom(_, _, _, _) => ReceiveExactly(s, step);
      case SendTo(_, _, _, _, _, _, _) => SendExactly(s, step);
      case Signal(n, badge) => SignalExactly(s, n, badge); assert ObjectOk(s, n);
      case CancelBadged(x, badge) => WithBadgeMembers(s.threads, s.objects[e].queue, badge, false, t);
      case _ =>
    }
  }

  /** A receiver that leaves its queue without being cancelled has the badge of whoever sent. */
  lemma ReceiverServed(s: State, step: Step, e: nat, t: nat)
    requires Inv(s) && Enabled(s, step) && IsEndpoint(s, e) && t in s.objects[e].queue && s.objects[e].epState == Recv
    requires t in s.threads && !Cancelled(s, step, t)
    ensures var s' := Next(s, step);
      && e in s'.objects
      && (t !in s'.objects[e].queue ==> step.SendTo? && step.e == e && t in s'.threads && s'.threads[t].register == step.badge)
  {
    assert ObjectOk(s, e) && WaitsAt(s, t, e);
    ServedInOrder(s, step, e, t);
    match step {
      case SendTo(_, _, _, _, _, _, _) => SendExactly(s, step);
      case ReceiveFrom(_, _, _, _) => ReceiveExactly(s, step);
      case Signal(n, badge) => SignalExactly(s, n, badge); assert ObjectOk(s, n);
      case _ =>
    }
  }
}
