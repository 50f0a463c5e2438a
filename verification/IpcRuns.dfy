/** Runs of endpoint and notification operations: queues and states always agree, delivery
    is first come first served, and no signal is lost. */
module IpcRuns {
  import opened Ipc
  import opened Sequences
  import opened ThreadStates

  datatype Step =
    | SendTo(e: nat, t: nat, blocking: bool, call: bool, grant: bool, badge: Bits, grantReply: bool)
    | ReceiveFrom(e: nat, t: nat, blocking: bool, grant: bool)
    | Cancel(t: nat)
    | CancelEverything(x: nat)
    | CancelBadged(e: nat, badge: Bits)
    | Signal(n: nat, badge: Bits)
    | WaitFor(n: nat, t: nat, blocking: bool)
    | Bind(n: nat, t: nat)
    | Unbind(n: nat)
    | Reschedule(t: nat, state: ThreadState)

  /** A thread that can make a system call. */
  predicate Ready(s: State, t: nat) { t in s.threads && IsRunnable(s.threads[t].state) }

  /** What binding checks. */
  predicate CanBind(s: State, n: nat, t: nat) {
    IsNotification(s, n) && t in s.threads && s.objects[n].queue == [] && s.threads[t].bound == 0
  }

  /** What it should check as well: that the notification is not bound to another thread, and
      does not have a signal for a thread that is already waiting. */
  predicate SafeToBind(s: State, n: nat, t: nat)
    requires CanBind(s, n, t)
  {
    s.objects[n].bound == 0 && !(IsActive(s, n) && s.threads[t].state == BlockedOnReceive)
  }

  ghost predicate Enabled(s: State, step: Step) {
    match step
    case SendTo(e, t, _, _, _, _, _) => IsEndpoint(s, e) && Ready(s, t)
    case ReceiveFrom(e, t, _, _) => IsEndpoint(s, e) && Ready(s, t)
    case Cancel(t) => t in s.threads
    case CancelEverything(x) => x in s.objects
    case CancelBadged(e, _) => IsEndpoint(s, e)
    case Signal(n, _) => IsNotification(s, n)
    case WaitFor(n, t, _) => IsNotification(s, n) && Ready(s, t)
    case Bind(n, t) => CanBind(s, n, t) && SafeToBind(s, n, t)
    case Unbind(n) => IsNotification(s, n)
    case Reschedule(t, st) => t in s.threads && !Queueing(s.threads[t].state) && !Queueing(st)
  }

  function Bound(s: State, n: nat, t: nat): State
    requires IsNotification(s, n) && t in s.threads
  {
    Update(s, n, s.objects[n].(bound := t), t, s.threads[t].(bound := n))
  }

  /** `safe_unbind_tcb`. */
  function Unbound(s: State, n: nat): State
    requires IsNotification(s, n)
  {
    var t := s.objects[n].bound;
    var s1 := SetObject(s, n, s.objects[n].(bound := 0));
    if t in s.threads then SetThread(s1, t, s.threads[t].(bound := 0)) else s1
  }

  lemma Heads(s: State, x: nat)
    requires Inv(s) && x in s.objects
    ensures HeadOk(s, x)
  {
    assert ObjectOk(s, x);
    if s.objects[x].queue != [] { assert WaitsAt(s, s.objects[x].queue[0], x); }
  }

  lemma Waiters(s: State, t: nat)
    requires Inv(s) && t in s.threads && Queueing(s.threads[t].state)
    ensures s.threads[t].waitsOn in s.objects && t in s.objects[s.threads[t].waitsOn].queue
  {
    assert ThreadOk(s, t);
  }

  ghost function Next(s: State, step: Step): State
    requires Inv(s) && Enabled(s, step)
  {
    match step
    case SendTo(e, t, blocking, call, grant, badge, grantReply) =>
      Heads(s, e); SendIpc(s, e, t, blocking, call, grant, badge, grantReply)
    case ReceiveFrom(e, t, blocking, grant) =>
      Heads(s, e); ReceiveIpc(s, e, t, blocking, grant)
    case Cancel(t) =>
      assert ThreadOk(s, t); CancelIpc(s, t)
    case CancelEverything(x) => CancelAll(s, x)
    case CancelBadged(e, badge) => CancelBadgedSends(s, e, badge)
    case Signal(n, badge) =>
      Heads(s, n);
      assert s.objects[n].bound in s.threads ==> ThreadOk(s, s.objects[n].bound);
      SendSignal(s, n, badge)
    case WaitFor(n, t, blocking) => ReceiveSignal(s, n, t, blocking)
    case Bind(n, t) => Bound(s, n, t)
    case Unbind(n) => Unbound(s, n)
    case Reschedule(t, st) => SetThread(s, t, s.threads[t].(state := st))
  }

  // ----- every step keeps the invariant -----

  lemma PopKeeps(s: State, x: nat, th: Thread)
    requires Inv(s) && x in s.objects && s.objects[x].queue != [] && HeadOk(s, x) && !Queueing(th.state)
    requires th.bound == s.threads[s.objects[x].queue[0]].bound
    ensures Inv(Update(s, x, Shortened(s.objects[x], s.objects[x].queue[1..]), s.objects[x].queue[0], th))
  {
    assert ObjectOk(s, x);
    var q := s.objects[x].queue;
    ReleaseKeeps(s, Update(s, x, Shortened(s.objects[x], q[1..]), q[0], th), x, q[1..]);
  }

  lemma SendKeeps(s: State, step: Step)
    requires Inv(s) && step.SendTo? && Enabled(s, step)
    ensures Inv(Next(s, step))
  {
    var e, t := step.e, step.t;
    Heads(s, e);
    var ep := s.objects[e];
    if ep.epState == Recv {
      var dest := ep.queue[0];
      assert ObjectOk(s, e) && WaitsAt(s, dest, e);
      var s1 := Update(s, e, Shortened(ep, ep.queue[1..]), dest, s.threads[dest].(register := step.badge, state := Running));
      PopKeeps(s, e, s1.threads[dest]);
      if step.call { ThreadKeeps(s1, t, s1.threads[t].(state := AfterCall(step.grant, step.grantReply))); }
    } else if step.blocking {
      BlockKeeps(s, e, Endpoint(Send, ep.queue + [t]), t, Next(s, step).threads[t]);
    }
  }

  lemma ReceiveKeeps(s: State, step: Step)
    requires Inv(s) && step.ReceiveFrom? && Enabled(s, step)
    ensures Inv(Next(s, step))
  {
    var e, t := step.e, step.t;
    Heads(s, e);
    var ep, th := s.objects[e], s.threads[t];
    if HasSignal(s, t) {
      TakeKeeps(s, th.bound, t);
    } else if ep.epState == Send {
      var sender := ep.queue[0];
      assert ObjectOk(s, e) && WaitsAt(s, sender, e);
      var sth := s.threads[sender];
      var st := if sth.isCall then AfterCall(sth.canGrant, sth.canGrantReply) else Running;
      PopKeeps(s, e, sth.(state := st));
      var s1 := Update(s, e, Shortened(ep, ep.queue[1..]), sender, sth.(state := st));
      ThreadKeeps(s1, t, s1.threads[t].(register := sth.badge));
    } else if step.blocking {
      BlockKeeps(s, e, Endpoint(Recv, ep.queue + [t]), t, Next(s, step).threads[t]);
    } else {
      ThreadKeeps(s, t, th.(register := {}));
    }
  }

  /** A thread takes the pending signal. */
  lemma TakeKeeps(s: State, n: nat, t: nat)
    requires Inv(s) && IsActive(s, n) && Ready(s, t)
    ensures Inv(Update(s, n, s.objects[n].(ntfnState := NtfnIdle), t, s.threads[t].(register := s.objects[n].msg)))
  {
    PendingKeeps(s, n, false, s.objects[n].msg);
    var s1 := SetObject(s, n, s.objects[n].(ntfnState := NtfnIdle));
    ThreadKeeps(s1, t, s.threads[t].(register := s.objects[n].msg));
  }

  lemma CancelKeeps(s: State, t: nat)
    requires Inv(s) && t in s.threads
    ensures ThreadOk(s, t) && Inv(CancelIpc(s, t))
  {
    assert ThreadOk(s, t);
    if Queueing(s.threads[t].state) {
      var x := s.threads[t].waitsOn;
      assert ObjectOk(s, x);
      WithoutDistinct(s.objects[x].queue, t);
      ReleaseKeeps(s, CancelIpc(s, t), x, Without(s.objects[x].queue, t));
    }
  }

  lemma CancelAllKeeps(s: State, x: nat)
    requires Inv(s) && x in s.objects
    ensures Inv(CancelAll(s, x))
  {
    assert ObjectOk(s, x);
    if CancelAll(s, x) != s { ReleaseKeeps(s, CancelAll(s, x), x, []); }
  }

  lemma {:induction false} WithBadgeDistinct(threads: map<nat, Thread>, q: seq<nat>, badge: Bits, matching: bool)
    requires Distinct(q)
    ensures Distinct(WithBadge(threads, q, badge, matching))
  {
    if q != [] {
      WithBadgeDistinct(threads, q[1..], badge, matching);
      WithBadgeMembers(threads, q[1..], badge, matching, q[0]);
      assert q[0] !in q[1..];
    }
  }

  lemma CancelBadgedKeeps(s: State, e: nat, badge: Bits)
    requires Inv(s) && IsEndpoint(s, e)
    ensures Inv(CancelBadgedSends(s, e, badge))
  {
    assert ObjectOk(s, e);
    if s.objects[e].epState == Send {
      var q := s.objects[e].queue;
      WithBadgeDistinct(s.threads, q, badge, false);
      forall t ensures t in WithBadge(s.threads, q, badge, false) <==> t in q && !(t in s.threads && s.threads[t].badge == badge) {
        WithBadgeMembers(s.threads, q, badge, false, t);
      }
      forall t ensures t in WithBadge(s.threads, q, badge, true) <==> t in q && t in s.threads && s.threads[t].badge == badge {
        WithBadgeMembers(s.threads, q, badge, true, t);
      }
      ReleaseKeeps(s, CancelBadgedSends(s, e, badge), e, WithBadge(s.threads, q, badge, false));
    }
  }

  lemma SignalKeeps(s: State, n: nat, badge: Bits)
    requires Inv(s) && Enabled(s, Signal(n, badge))
    ensures Inv(Next(s, Signal(n, badge)))
  {
    Heads(s, n);
    var ntfn := s.objects[n];
    assert ObjectOk(s, n);
    match ntfn.ntfnState {
      case NtfnIdle =>
        if BoundReceives(s, n) {
          CancelKeeps(s, ntfn.bound);
          var s1 := CancelIpc(s, ntfn.bound);
          ThreadKeeps(s1, ntfn.bound, s1.threads[ntfn.bound].(state := Running, register := badge));
        } else {
          PendingKeeps(s, n, true, badge);
        }
      case Waiting =>
        PopKeeps(s, n, s.threads[ntfn.queue[0]].(state := Running, register := badge));
      case Active =>
        assert ntfn.bound in s.threads ==> ThreadOk(s, ntfn.bound);
        PendingKeeps(s, n, true, ntfn.msg + badge);
    }
  }

  lemma WaitKeeps(s: State, step: Step)
    requires Inv(s) && step.WaitFor? && Enabled(s, step)
    ensures Inv(Next(s, step))
  {
    var n, t := step.n, step.t;
    var ntfn := s.objects[n];
    assert ObjectOk(s, n);
    if ntfn.ntfnState == Active {
      TakeKeeps(s, n, t);
    } else if step.blocking {
      BlockKeeps(s, n, ntfn.(ntfnState := Waiting, queue := ntfn.queue + [t]), t, Next(s, step).threads[t]);
    } else {
      ThreadKeeps(s, t, s.threads[t].(register := {}));
    }
  }

  /** Binding keeps the invariant exactly when the notification is not bound already, which is
      not checked, and has no signal for a thread that is waiting to receive. */
  lemma BindKeeps(s: State, n: nat, t: nat)
    requires Inv(s) && CanBind(s, n, t)
    ensures Inv(Bound(s, n, t)) <==> SafeToBind(s, n, t)
  {
    var s' := Bound(s, n, t);
    assert ObjectOk(s, n);
    if s.objects[n].bound != 0 {
      assert !ThreadOk(s', s.objects[n].bound);
    } else if IsActive(s, n) && s.threads[t].state == BlockedOnReceive {
      assert !ThreadOk(s', t);
    } else {
      forall y | y in s'.objects ensures ObjectOk(s', y) {
        assert ObjectOk(s, y);
        forall u | u in s'.objects[y].queue ensures WaitsAt(s', u, y) { assert WaitsAt(s, u, y); }
      }
      forall u | u in s'.threads ensures ThreadOk(s', u) { assert ThreadOk(s, u); }
    }
  }

  /** A notification bound to one thread passes the check for another. */
  lemma BindTwiceExample()
    ensures var idle := Thread(Inactive, 0, {}, false, false, false, {}, 0);
      var s := State(map[1 := Notification(NtfnIdle, [], {}, 0)], map[2 := idle, 3 := idle]);
      && Fresh(s) && Enabled(s, Bind(1, 2))
      && var s' := Next(s, Bind(1, 2)); Inv(s') && CanBind(s', 1, 3) && !SafeToBind(s', 1, 3) && !Inv(Bound(s', 1, 3))
  {
    var idle := Thread(Inactive, 0, {}, false, false, false, {}, 0);
    var s := State(map[1 := Notification(NtfnIdle, [], {}, 0)], map[2 := idle, 3 := idle]);
    BindKeeps(s, 1, 2);
    BindKeeps(Bound(s, 1, 2), 1, 3);
  }

  lemma UnbindKeeps(s: State, n: nat)
    requires Inv(s) && IsNotification(s, n)
    ensures Inv(Unbound(s, n))
  {
    var s' := Unbound(s, n);
    assert ObjectOk(s, n);
    forall y | y in s'.objects ensures ObjectOk(s', y) {
      assert ObjectOk(s, y);
      forall u | u in s'.objects[y].queue ensures WaitsAt(s', u, y) { assert WaitsAt(s, u, y); }
    }
    forall u | u in s'.threads ensures ThreadOk(s', u) { assert ThreadOk(s, u); }
  }

  lemma StepKeeps(s: State, step: Step)
    requires Inv(s) && Enabled(s, step)
    ensures Inv(Next(s, step))
  {
    match step {
      case SendTo(_, _, _, _, _, _, _) => SendKeeps(s, step);
      case ReceiveFrom(_, _, _, _) => ReceiveKeeps(s, step);
      case Cancel(t) => CancelKeeps(s, t);
      case CancelEverything(x) => CancelAllKeeps(s, x);
      case CancelBadged(e, badge) => CancelBadgedKeeps(s, e, badge);
      case Signal(n, badge) => SignalKeeps(s, n, badge);
      case WaitFor(_, _, _) => WaitKeeps(s, step);
      case Bind(n, t) => BindKeeps(s, n, t);
      case Unbind(n) => UnbindKeeps(s, n);
      case Reschedule(t, st) => ThreadKeeps(s, t, s.threads[t].(state := st));
    }
  }

  // ----- runs -----

  ghost predicate Legal(s: State, steps: seq<Step>)
    requires Inv(s)
    decreases |steps|
  {
    steps == [] || (Enabled(s, steps[0]) && (StepKeeps(s, steps[0]); Legal(Next(s, steps[0]), steps[1..])))
  }

  ghost function Run(s: State, steps: seq<Step>): State
    requires Inv(s) && Legal(s, steps)
    decreases |steps|
  {
    if steps == [] then s else StepKeeps(s, steps[0]); Run(Next(s, steps[0]), steps[1..])
  }

  lemma {:induction false} RunKeeps(s: State, steps: seq<Step>)
    requires Inv(s) && Legal(s, steps)
    ensures Inv(Run(s, steps))
    decreases |steps|
  {
    if steps != [] {
      StepKeeps(s, steps[0]);
      RunKeeps(Next(s, steps[0]), steps[1..]);
    }
  }

  // ----- first come, first served -----

  /** `r` is `q` with some elements left out. */
  predicate Sublist(r: seq<nat>, q: seq<nat>) {
    r == [] || (q != [] && ((r[0] == q[0] && Sublist(r[1..], q[1..])) || Sublist(r, q[1..])))
  }

  lemma {:induction false} WholeSublist(q: seq<nat>)
    ensures Sublist(q, q)
  {
    if q != [] { WholeSublist(q[1..]); }
  }

  lemma {:induction false} WithoutSublist(q: seq<nat>, t: nat)
    ensures Sublist(Without(q, t), q)
  {
    if q != [] {
      WithoutSublist(q[1..], t);
      assert Without(q, t) == if q[0] == t then Without(q[1..], t) else [q[0]] + Without(q[1..], t);
    }
  }

  lemma {:induction false} WithBadgeSublist(threads: map<nat, Thread>, q: seq<nat>, badge: Bits, matching: bool)
    ensures Sublist(WithBadge(threads, q, badge, matching), q)
  {
    if q != [] {
      var rest := WithBadge(threads, q[1..], badge, matching);
      WithBadgeSublist(threads, q[1..], badge, matching);
      assert WithBadge(threads, q, badge, matching) == rest || WithBadge(threads, q, badge, matching) == [q[0]] + rest;
    }
  }

  lemma OrderKeptByCalls(s: State, step: Step, x: nat) returns (stay: seq<nat>, join: seq<nat>)
    requires Inv(s) && (step.SendTo? || step.ReceiveFrom? || step.WaitFor?) && Enabled(s, step) && x in s.objects
    ensures var s' := Next(s, step); x in s'.objects && s'.objects[x].queue == stay + join
    ensures Sublist(stay, s.objects[x].queue) && |join| <= 1
    ensures forall t :: t in join ==> t !in s.objects[x].queue
  {
    var q := s.objects[x].queue;
    assert ObjectOk(s, x);
    WholeSublist(q);
    if q != [] { WholeSublist(q[1..]); }
    stay, join := q, [];
    match step
    case SendTo(e, t, blocking, _, _, _, _) =>
      Heads(s, e);
      assert t in q ==> WaitsAt(s, t, x);
      if e == x && s.objects[e].epState == Recv { stay := q[1..]; } else if e == x && blocking { join := [t]; }
    case ReceiveFrom(e, t, blocking, _) =>
      Heads(s, e);
      assert t in q ==> WaitsAt(s, t, x);
      if e == x && !HasSignal(s, t) {
        if s.objects[e].epState == Send { stay := q[1..]; } else if blocking { join := [t]; }
      }
    case WaitFor(n, t, blocking) =>
      assert t in q ==> WaitsAt(s, t, x);
      if n == x && s.objects[n].ntfnState != Active && blocking { join := [t]; }
  }

  /** Nobody overtakes: in every step, those who stay in a queue keep their order, and whoever
      joins does so at the end. */
  lemma OrderKept(s: State, step: Step, x: nat) returns (stay: seq<nat>, join: seq<nat>)
    requires Inv(s) && Enabled(s, step) && x in s.objects
    ensures var s' := Next(s, step); x in s'.objects && s'.objects[x].queue == stay + join
    ensures Sublist(stay, s.objects[x].queue) && |join| <= 1
    ensures forall t :: t in join ==> t !in s.objects[x].queue
  {
    var q := s.objects[x].queue;
    assert ObjectOk(s, x);
    WholeSublist(q);
    if q != [] { WholeSublist(q[1..]); }
    stay, join := q, [];
    match step
    case SendTo(_, _, _, _, _, _, _) => stay, join := OrderKeptByCalls(s, step, x);
    case ReceiveFrom(_, _, _, _) => stay, join := OrderKeptByCalls(s, step, x);
    case WaitFor(_, _, _) => stay, join := OrderKeptByCalls(s, step, x);
    case Signal(n, _) =>
      Heads(s, n);
      var u := s.objects[n].bound;
      if s.objects[n].ntfnState == NtfnIdle && BoundReceives(s, n) && s.threads[u].waitsOn == x {
        WithoutSublist(q, u);
        stay := Without(q, u);
      } else if n == x && s.objects[n].ntfnState == Waiting {
        stay := q[1..];
      }
    case Cancel(t) =>
      if Queueing(s.threads[t].state) && s.threads[t].waitsOn == x {
        WithoutSublist(q, t);
        stay := Without(q, t);
      }
    case CancelBadged(e, badge) =>
      if e == x && s.objects[e].epState == Send {
        WithBadgeSublist(s.threads, q, badge, false);
        stay := WithBadge(s.threads, q, badge, false);
      }
    case CancelEverything(y) => if y == x { stay := []; }
    case _ =>
  }

  /** Leaving a queue by cancellation: of the thread, of the whole queue, of its badge, or by
      a signal to the notification bound to it. */
  predicate Cancelled(s: State, step: Step, t: nat)
    requires t in s.threads
  {
    match step
    case Cancel(u) => u == t
    case CancelEverything(x) => s.threads[t].waitsOn == x
    case CancelBadged(e, badge) => s.threads[t].waitsOn == e && s.threads[t].state == BlockedOnSend && s.threads[t].badge == badge
    case Signal(n, _) => s.threads[t].state == BlockedOnReceive && s.threads[t].bound == n && n != 0
    case _ => false
  }

  /** Whoever leaves a queue otherwise was its first. */
  lemma ServedInOrder(s: State, step: Step, x: nat, t: nat)
    requires Inv(s) && Enabled(s, step) && x in s.objects && t in s.objects[x].queue
    requires t in s.threads && !Cancelled(s, step, t)
    ensures var s' := Next(s, step); x in s'.objects && (t in s'.objects[x].queue || t == s.objects[x].queue[0])
  {
    assert ObjectOk(s, x) && WaitsAt(s, t, x);
    if step.Signal? && s.objects[step.n].bound in s.threads { assert ThreadOk(s, s.objects[step.n].bound) && ObjectOk(s, step.n); }
    if step.CancelBadged? {
      assert ObjectOk(s, step.e);
      WithBadgeMembers(s.threads, s.objects[x].queue, step.badge, false, t);
    }
  }

  /** `t` is ahead of `u` in a queue. */
  ghost predicate Ahead(q: seq<nat>, t: nat, u: nat) { exists i, j :: 0 <= i < j < |q| && q[i] == t && q[j] == u }

  lemma {:induction false} SublistAhead(r: seq<nat>, q: seq<nat>, t: nat, u: nat)
    requires Sublist(r, q) && Distinct(q) && Ahead(q, t, u) && t in r && u in r
    ensures Ahead(r, t, u)
  {
    if r[0] == q[0] && Sublist(r[1..], q[1..]) {
      if t == q[0] {
        var j :| 0 <= j < |r| && r[j] == u;
        assert r[0] == t;
      } else {
        TailAhead(q, t, u);
        SublistAhead(r[1..], q[1..], t, u);
        var i, j :| 0 <= i < j < |r[1..]| && r[1..][i] == t && r[1..][j] == u;
        assert r[i + 1] == t && r[j + 1] == u;
      }
    } else {
      SublistMembers(r, q[1..], t);
      TailAhead(q, t, u);
      SublistAhead(r, q[1..], t, u);
    }
  }

  lemma TailAhead(q: seq<nat>, t: nat, u: nat)
    requires Distinct(q) && Ahead(q, t, u) && (t != q[0] || t in q[1..])
    ensures Ahead(q[1..], t, u) && Distinct(q[1..])
  {
    var i, j :| 0 <= i < j < |q| && q[i] == t && q[j] == u;
    assert q[1..][i - 1] == t && q[1..][j - 1] == u;
  }

  lemma {:induction false} SublistMembers(r: seq<nat>, q: seq<nat>, t: nat)
    requires Sublist(r, q) && t in r
    ensures t in q
  {
    if r[0] == q[0] && Sublist(r[1..], q[1..]) {
      if t != r[0] { SublistMembers(r[1..], q[1..], t); }
    } else {
      SublistMembers(r, q[1..], t);
    }
  }

  lemma AheadStep(s: State, step: Step, x: nat, t: nat, u: nat)
    requires Inv(s) && Enabled(s, step) && x in s.objects && Ahead(s.objects[x].queue, t, u)
    requires u in s.threads && !Cancelled(s, step, u)
    requires var s' := Next(s, step); x in s'.objects && t in s'.objects[x].queue
    ensures Ahead(Next(s, step).objects[x].queue, t, u)
  {
    var q, q' := s.objects[x].queue, Next(s, step).objects[x].queue;
    assert ObjectOk(s, x);
    ServedInOrder(s, step, x, u);
    var stay, join := OrderKept(s, step, x);
    SublistAhead(stay, q, t, u);
    var i, j :| 0 <= i < j < |stay| && stay[i] == t && stay[j] == u;
    assert q'[i] == t && q'[j] == u;
  }

  /** `t` is in the queue of `x` all along the run. */
  ghost predicate Stays(s: State, steps: seq<Step>, x: nat, t: nat)
    requires Inv(s) && Legal(s, steps)
    decreases |steps|
  {
    && x in s.objects && t in s.objects[x].queue
    && (steps == [] || (StepKeeps(s, steps[0]); Stays(Next(s, steps[0]), steps[1..], x, t)))
  }

  /** No step of the run cancels the wait of `u`. */
  ghost predicate NeverCancelled(s: State, steps: seq<Step>, u: nat)
    requires Inv(s) && Legal(s, steps)
    decreases |steps|
  {
    steps == [] || (u in s.threads && !Cancelled(s, steps[0], u) && (StepKeeps(s, steps[0]); NeverCancelled(Next(s, steps[0]), steps[1..], u)))
  }

  /** First come, first served in every run: whoever came later does not leave the queue, unless
      its wait is cancelled, as long as someone who came before is in it. */
  lemma {:induction false} FirstComeFirstServed(s: State, steps: seq<Step>, x: nat, t: nat, u: nat)
    requires Inv(s) && Legal(s, steps) && x in s.objects && Ahead(s.objects[x].queue, t, u)
    requires Stays(s, steps, x, t) && NeverCancelled(s, steps, u)
    ensures var e := Run(s, steps); x in e.objects && Ahead(e.objects[x].queue, t, u)
    decreases |steps|
  {
    hide Next, Enabled, Inv;
    if steps != [] {
      StepKeeps(s, steps[0]);
      assert Stays(Next(s, steps[0]), steps[1..], x, t);
      AheadStep(s, steps[0], x, t, u);
      FirstComeFirstServed(Next(s, steps[0]), steps[1..], x, t, u);
    }
  }

  /** Cancelling a badge restarts exactly the senders with that badge. */
  lemma BadgedExactly(s: State, e: nat, badge: Bits, t: nat)
    requires Inv(s) && IsEndpoint(s, e) && s.objects[e].epState == Send && t in s.objects[e].queue
    ensures var s' := Next(s, CancelBadged(e, badge));
      && t in s.threads && t in s'.threads
      && (t in s'.objects[e].queue <==> s.threads[t].badge != badge)
      && s'.threads[t] == if s.threads[t].badge == badge then s.threads[t].(state := Restart) else s.threads[t]
  {
    assert ObjectOk(s, e) && WaitsAt(s, t, e);
    WithBadgeMembers(s.threads, s.objects[e].queue, badge, false, t);
    WithBadgeMembers(s.threads, s.objects[e].queue, badge, true, t);
  }

  /** A sender and a receiver meet at an idle endpoint in either order: the receiver gets the
      badge, the caller waits for its reply if it may, and the endpoint is idle again. */
  lemma MeetInEitherOrder(s: State, send: Step, recv: Step)
    requires Inv(s) && send.SendTo? && recv.ReceiveFrom? && send.e == recv.e && send.t != recv.t
    requires IsEndpoint(s, send.e) && s.objects[send.e].epState == EpIdle && send.blocking && recv.blocking
    requires send.t in s.threads && s.threads[send.t].state == Running
    requires recv.t in s.threads && s.threads[recv.t].state == Running && !HasSignal(s, recv.t)
    ensures Inv(Next(s, send)) && Enabled(Next(s, send), recv) && Inv(Next(s, recv)) && Enabled(Next(s, recv), send)
    ensures var x, y := Next(Next(s, send), recv), Next(Next(s, recv), send);
      && x.objects == y.objects == s.objects && x.threads.Keys == y.threads.Keys == s.threads.Keys
      && (forall t :: t in s.threads ==> x.threads[t].state == y.threads[t].state && x.threads[t].register == y.threads[t].register)
      && x.threads[recv.t].register == send.badge && x.threads[recv.t].state == Running
      && x.threads[send.t].state == if send.call then AfterCall(send.grant, send.grantReply) else Running
  {
    SendKeeps(s, send);
    ReceiveKeeps(s, recv);
    SendFirst(s, send, recv);
    ReceiveFirst(s, send, recv);
  }

  lemma SendFirst(s: State, send: Step, recv: Step)
    requires Inv(s) && send.SendTo? && recv.ReceiveFrom? && send.e == recv.e && send.t != recv.t
    requires IsEndpoint(s, send.e) && s.objects[send.e].epState == EpIdle && send.blocking
    requires Ready(s, send.t) && Ready(s, recv.t) && !HasSignal(s, recv.t) && Inv(Next(s, send))
    ensures Enabled(Next(s, send), recv)
    ensures var x := Next(Next(s, send), recv);
      && x.objects == s.objects && x.threads.Keys == s.threads.Keys
      && (forall t :: t in s.threads && t != send.t && t != recv.t ==> x.threads[t] == s.threads[t])
      && x.threads[recv.t] == s.threads[recv.t].(register := send.badge)
      && x.threads[send.t].register == s.threads[send.t].register
      && x.threads[send.t].state == if send.call then AfterCall(send.grant, send.grantReply) else Running
  {
    assert ObjectOk(s, send.e);
    Heads(s, send.e);
    Heads(Next(s, send), send.e);
    hide Inv;
    assert s.objects[send.e] == Endpoint(EpIdle, []);
    assert Next(s, send).objects[send.e] == Endpoint(Send, [send.t]);
  }

  lemma ReceiveFirst(s: State, send: Step, recv: Step)
    requires Inv(s) && send.SendTo? && recv.ReceiveFrom? && send.e == recv.e && send.t != recv.t
    requires IsEndpoint(s, send.e) && s.objects[send.e].epState == EpIdle && recv.blocking
    requires Ready(s, send.t) && Ready(s, recv.t) && !HasSignal(s, recv.t) && Inv(Next(s, recv))
    ensures Enabled(Next(s, recv), send)
    ensures var y := Next(Next(s, recv), send);
      && y.objects == s.objects && y.threads.Keys == s.threads.Keys
      && (forall t :: t in s.threads && t != send.t && t != recv.t ==> y.threads[t] == s.threads[t])
      && y.threads[recv.t].register == send.badge && y.threads[recv.t].state == Running
      && y.threads[send.t] == s.threads[send.t].(state := if send.call then AfterCall(send.grant, send.grantReply) else s.threads[send.t].state)
  {
    assert ObjectOk(s, send.e);
    Heads(s, send.e);
    Heads(Next(s, recv), send.e);
    hide Inv;
    assert s.objects[send.e] == Endpoint(EpIdle, []);
    assert Next(s, recv).objects[send.e] == Endpoint(Recv, [recv.t]);
  }

  // ----- no signal is lost -----

  /** The signals nobody has received yet. */
  function Pending(s: State, n: nat): Bits { if IsActive(s, n) then s.objects[n].msg else {} }

  function Sent(step: Step, n: nat): Bits { if step.Signal? && step.n == n then step.badge else {} }

  /** The thread that receives the signals of `n` in this step, or 0. */
  function Taker(s: State, step: Step, n: nat): nat
    requires IsNotification(s, n)
  {
    match step
    case Signal(m, _) =>
      if m != n then 0
      else if s.objects[n].ntfnState == NtfnIdle && BoundReceives(s, n) then s.objects[n].bound
      else if s.objects[n].ntfnState == Waiting && s.objects[n].queue != [] then s.objects[n].queue[0]
      else 0
    case WaitFor(m, t, _) => if m == n && IsActive(s, n) then t else 0
    case ReceiveFrom(_, t, _, _) => if HasSignal(s, t) && s.threads[t].bound == n then t else 0
    case _ => 0
  }

  /** What it finds in its badge register. */
  ghost function Got(s: State, step: Step, n: nat): Bits
    requires Inv(s) && Enabled(s, step) && IsNotification(s, n)
  {
    var t, s' := Taker(s, step, n), Next(s, step);
    if t != 0 && t in s'.threads then s'.threads[t].register else {}
  }

  lemma SignalSent(s: State, m: nat, badge: Bits, n: nat)
    requires Inv(s) && Enabled(s, Signal(m, badge)) && IsNotification(s, n)
    ensures var s', t := Next(s, Signal(m, badge)), Taker(s, Signal(m, badge), n);
      && IsNotification(s', n)
      && (t == 0 ==> Pending(s', n) == Pending(s, n) + Sent(Signal(m, badge), n))
      && (t != 0 ==> Ready(s', t) && s'.threads[t].register == Pending(s, n) + badge && m == n && Pending(s', n) == {})
  {
    assert ObjectOk(s, n);
    assert Pending(s, n) + {} == Pending(s, n);
    Heads(s, m);
    assert ObjectOk(s, m);
    assert s.objects[m].bound in s.threads ==> ThreadOk(s, s.objects[m].bound);
  }

  /** Each step either adds the signal to what is pending or hands everything, once, to one
      thread that can run. */
  lemma SignalStep(s: State, step: Step, n: nat)
    requires Inv(s) && Enabled(s, step) && IsNotification(s, n)
    ensures var s', t := Next(s, step), Taker(s, step, n);
      && IsNotification(s', n)
      && (t == 0 ==> Pending(s', n) == Pending(s, n) + Sent(step, n) && Got(s, step, n) == {})
      && (t != 0 ==> Ready(s', t) && Got(s, step, n) == Pending(s, n) + Sent(step, n) && Pending(s', n) == {})
  {
    assert ObjectOk(s, n);
    assert Pending(s, n) + {} == Pending(s, n);
    match step {
      case Signal(m, badge) => SignalSent(s, m, badge, n);
      case CancelEverything(x) => assert ObjectOk(s, x);
      case SendTo(e, _, _, _, _, _, _) => Heads(s, e);
      case ReceiveFrom(e, t, _, _) => Heads(s, e);
      case Cancel(t) => assert ThreadOk(s, t);
      case CancelBadged(_, _) =>
      case WaitFor(_, _, _) =>
      case Bind(_, _) =>
      case Unbind(_) =>
      case Reschedule(_, _) =>
    }
  }

  ghost function GotAll(s: State, steps: seq<Step>, n: nat): Bits
    requires Inv(s) && Legal(s, steps) && IsNotification(s, n)
    decreases |steps|
  {
    if steps == [] then {}
    else
      StepKeeps(s, steps[0]);
      SignalStep(s, steps[0], n);
      Got(s, steps[0], n) + GotAll(Next(s, steps[0]), steps[1..], n)
  }

  function SentAll(steps: seq<Step>, n: nat): Bits {
    if steps == [] then {} else Sent(steps[0], n) + SentAll(steps[1..], n)
  }

  /** The bits of all signals sent since somebody last received, starting from `owed`. */
  ghost function Owed(owed: Bits, s: State, steps: seq<Step>, n: nat): Bits
    requires Inv(s) && Legal(s, steps) && IsNotification(s, n)
    decreases |steps|
  {
    if steps == [] then owed
    else
      StepKeeps(s, steps[0]);
      SignalStep(s, steps[0], n);
      Owed(if Taker(s, steps[0], n) == 0 then owed + Sent(steps[0], n) else {}, Next(s, steps[0]), steps[1..], n)
  }

  /** In every run, what has been received together with what is pending is what was sent,
      and what is pending is exactly what was sent since the last time it was received. */
  lemma {:induction false} NoSignalLost(s: State, steps: seq<Step>, n: nat)
    requires Inv(s) && Legal(s, steps) && IsNotification(s, n)
    ensures Pending(s, n) + SentAll(steps, n) == GotAll(s, steps, n) + Pending(Run(s, steps), n)
    ensures Pending(Run(s, steps), n) == Owed(Pending(s, n), s, steps, n)
    decreases |steps|
  {
    hide Next, Enabled, Inv;
    if steps != [] {
      StepKeeps(s, steps[0]);
      SignalStep(s, steps[0], n);
      NoSignalLost(Next(s, steps[0]), steps[1..], n);
    }
  }

  /** From new objects on: queues and states agree after every run, and every signal was received
      or is pending. */
  lemma {:induction false} FreshRun(s: State, steps: seq<Step>, n: nat)
    requires Fresh(s) && Legal(s, steps)
    ensures Inv(Run(s, steps))
    ensures IsNotification(s, n) ==>
      && SentAll(steps, n) == GotAll(s, steps, n) + Pending(Run(s, steps), n)
      && Pending(Run(s, steps), n) == Owed({}, s, steps, n)
  {
    RunKeeps(s, steps);
    if IsNotification(s, n) {
      NoSignalLost(s, steps, n);
      assert Pending(s, n) == {};
    }
  }
}
