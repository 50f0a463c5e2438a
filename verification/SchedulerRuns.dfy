/** Whole runs of the scheduler: no runnable thread is ever lost, and whenever
    `schedule` returns, no ready thread has a higher priority than the one chosen. */
module SchedulerRuns {
  import opened Scheduler
  import opened Sequences
  import opened ThreadStates

  type Tcbs = map<nat, Tcb>

  /** The queue of each priority holds exactly the threads of that priority that are
      marked as queued, each once. */
  ghost predicate QueuesMatch(m: Tcbs, queues: Queues) {
    && (forall p: Prio, t :: t in queues[p] ==> t in m && m[t].queued && m[t].prio == p)
    && (forall t :: t in m && m[t].queued ==> t in queues[m[t].prio])
    && (forall p: Prio :: Distinct(queues[p]))
  }

  ghost predicate QueuesOk(s: Sched) { QueuesMatch(s.tcbs, s.queues) }

  /** No queued thread, `except` apart, should run instead of the current one. */
  ghost predicate NoneBeats(m: Tcbs, cur: nat, idle: nat, except: nat)
    requires cur in m
  {
    forall t :: t in m && m[t].queued && t != except ==> cur != idle && m[t].prio <= m[cur].prio
  }

  /** A runnable thread is current, is the pending candidate, or is queued. */
  ghost predicate Located(m: Tcbs, cur: nat, action: Action, t: nat) {
    t == cur || action == SwitchTo(t) || (t in m && m[t].queued)
  }

  ghost predicate LocatedExcept(m: Tcbs, cur: nat, action: Action, x: nat) {
    forall t :: t in m && IsRunnable(m[t].state) && t != x ==> Located(m, cur, action, t)
  }

  /** What holds even between the parts of one operation. */
  ghost predicate Base(m: Tcbs, cur: nat, idle: nat, action: Action) {
    && cur in m && idle in m && m[idle].state == IdleThread
    && (action.SwitchTo? ==> action.thread in m && action.thread != idle && IsRunnable(m[action.thread].state))
    && (forall t :: t in m && m[t].queued ==> IsRunnable(m[t].state))
  }

  /** Between operations: every runnable thread is located; unless a choice is pending,
      the current thread is runnable or idle and beaten by nobody but the candidate. */
  ghost predicate Order(m: Tcbs, cur: nat, idle: nat, action: Action) {
    && Base(m, cur, idle, action)
    && LocatedExcept(m, cur, action, idle)
    && (action != ChooseNew ==> !m[cur].queued)
    && (action == ResumeCurrent ==> (IsRunnable(m[cur].state) || cur == idle) && NoneBeats(m, cur, idle, cur))
    && (action.SwitchTo? ==> action.thread != cur && NoneBeats(m, cur, idle, action.thread))
  }

  ghost predicate Inv(s: Sched) {
    Order(s.tcbs, s.cur, s.idle, s.action) && QueuesOk(s)
  }

  // ----- queue operations -----

  lemma EnqueueKeeps(s: Sched, t: nat)
    requires QueuesOk(s) && t in s.tcbs
    ensures QueuesOk(Enqueue(s, t))
    ensures Enqueue(s, t).tcbs == s.tcbs[t := s.tcbs[t].(queued := true)]
  {
    var s', p := Enqueue(s, t), s.tcbs[t].prio;
    if !s.tcbs[t].queued { assert t !in s.queues[p]; }
    assert s'.tcbs == s.tcbs[t := s.tcbs[t].(queued := true)];
  }

  lemma AppendKeeps(s: Sched, t: nat)
    requires QueuesOk(s) && t in s.tcbs
    ensures QueuesOk(Append(s, t))
    ensures Append(s, t).tcbs == s.tcbs[t := s.tcbs[t].(queued := true)]
  {
    var s', p := Append(s, t), s.tcbs[t].prio;
    if !s.tcbs[t].queued { assert t !in s.queues[p]; }
    assert s'.tcbs == s.tcbs[t := s.tcbs[t].(queued := true)];
  }

  lemma DequeueKeeps(s: Sched, t: nat)
    requires QueuesOk(s) && t in s.tcbs
    ensures QueuesOk(Dequeue(s, t))
    ensures Dequeue(s, t).tcbs == s.tcbs[t := s.tcbs[t].(queued := false)]
  {
    WithoutDistinct(s.queues[s.tcbs[t].prio], t);
    assert Dequeue(s, t).tcbs == s.tcbs[t := s.tcbs[t].(queued := false)];
  }

  /** Changing fields that the queues do not depend on. */
  lemma SetTcbKeeps(s: Sched, t: nat, tcb: Tcb)
    requires QueuesOk(s) && t in s.tcbs && tcb.queued == s.tcbs[t].queued && (tcb.queued ==> tcb.prio == s.tcbs[t].prio)
    ensures QueuesOk(SetTcb(s, t, tcb))
  {
  }

  lemma InvClosed(s: Sched)
    requires QueuesOk(s) && s.cur in s.tcbs && s.idle in s.tcbs && (s.action.SwitchTo? ==> s.action.thread in s.tcbs)
    ensures Closed(s)
  {
    forall p: Prio, i | 0 <= i < |s.queues[p]| ensures s.queues[p][i] in s.tcbs {
      assert s.queues[p][i] in s.queues[p];
    }
  }

  // ----- reschedule_required and possible_switch_to -----

  function Queue(m: Tcbs, t: nat): Tcbs
    requires t in m
  {
    m[t := m[t].(queued := true)]
  }

  lemma RescheduleKeeps(s: Sched)
    requires QueuesOk(s) && Base(s.tcbs, s.cur, s.idle, s.action)
    ensures var r := RescheduleRequired(s);
            && QueuesOk(r) && r.action == ChooseNew && (r.cur, r.idle) == (s.cur, s.idle)
            && r.tcbs == (if s.action.SwitchTo? then Queue(s.tcbs, s.action.thread) else s.tcbs)
  {
    if s.action.SwitchTo? { EnqueueKeeps(s, s.action.thread); }
  }

  lemma RescheduleOrder(m: Tcbs, cur: nat, idle: nat, action: Action, x: nat)
    requires Base(m, cur, idle, action) && LocatedExcept(m, cur, action, x)
    ensures var m' := if action.SwitchTo? then Queue(m, action.thread) else m;
            Base(m', cur, idle, ChooseNew) && LocatedExcept(m', cur, ChooseNew, x)
  {
  }

  /** After `reschedule_required` nothing is asked of the order any more. */
  lemma RescheduleInv(s: Sched)
    requires QueuesOk(s) && Base(s.tcbs, s.cur, s.idle, s.action) && LocatedExcept(s.tcbs, s.cur, s.action, s.idle)
    ensures Inv(RescheduleRequired(s))
  {
    RescheduleKeeps(s);
    RescheduleOrder(s.tcbs, s.cur, s.idle, s.action, s.idle);
  }

  /** What `possible_switch_to` needs of the state it is called in. */
  ghost predicate CanSwitch(m: Tcbs, cur: nat, idle: nat, action: Action, t: nat) {
    && Base(m, cur, idle, action) && LocatedExcept(m, cur, action, t)
    && t in m && t != idle && IsRunnable(m[t].state)
    && (action == ResumeCurrent ==>
          && t != cur && (IsRunnable(m[cur].state) || cur == idle) && !m[cur].queued && NoneBeats(m, cur, idle, t))
  }

  lemma SwitchOrder(m: Tcbs, cur: nat, idle: nat, action: Action, t: nat)
    requires CanSwitch(m, cur, idle, action, t)
    ensures if action == ResumeCurrent then Order(m, cur, idle, SwitchTo(t))
            else Order(Queue(if action.SwitchTo? then Queue(m, action.thread) else m, t), cur, idle, ChooseNew)
  {
  }

  lemma PossibleSwitchQueues(s: Sched, t: nat)
    requires QueuesOk(s) && Base(s.tcbs, s.cur, s.idle, s.action) && t in s.tcbs
    ensures QueuesOk(PossibleSwitchTo(s, t))
    ensures s.action != ResumeCurrent ==>
              PossibleSwitchTo(s, t).tcbs
              == Queue(if s.action.SwitchTo? then Queue(s.tcbs, s.action.thread) else s.tcbs, t)
  {
    if s.action != ResumeCurrent {
      RescheduleKeeps(s);
      EnqueueKeeps(RescheduleRequired(s), t);
    }
  }

  /** `possible_switch_to` locates its target and keeps everything else. */
  lemma PossibleSwitchInv(s: Sched, t: nat)
    requires QueuesOk(s) && CanSwitch(s.tcbs, s.cur, s.idle, s.action, t)
    ensures Inv(PossibleSwitchTo(s, t))
  {
    PossibleSwitchQueues(s, t);
    SwitchOrder(s.tcbs, s.cur, s.idle, s.action, t);
  }

  // ----- every operation keeps the invariant -----

  lemma BlockKeeps(s: Sched, ts: ThreadState)
    requires Inv(s) && s.cur != s.idle && !s.tcbs[s.cur].queued && !IsRunnable(ts)
    ensures Inv(SetState(s, s.cur, ts))
  {
    var tcb := s.tcbs[s.cur].(state := ts);
    SetTcbKeeps(s, s.cur, tcb);
    if s.action == ResumeCurrent { RescheduleInv(SetTcb(s, s.cur, tcb)); }
  }

  lemma WakeOrder(m: Tcbs, cur: nat, idle: nat, action: Action, t: nat, ts: ThreadState, queued: bool)
    requires Order(m, cur, idle, action) && t in m && t != idle && !IsRunnable(m[t].state) && IsRunnable(ts)
    ensures CanSwitch(m[t := m[t].(state := ts, queued := queued)], cur, idle, action, t)
  {
  }

  lemma WakeKeeps(s: Sched, t: nat)
    requires Inv(s) && t in s.tcbs && t != s.idle && !s.Runnable(t)
    ensures Inv(Wake(s, t))
  {
    SetTcbKeeps(s, t, s.tcbs[t].(state := Running));
    WakeOrder(s.tcbs, s.cur, s.idle, s.action, t, Running, s.tcbs[t].queued);
    PossibleSwitchInv(SetState(s, t, Running), t);
  }

  lemma RestartTcbs(s: Sched, t: nat)
    requires t in s.tcbs && (s.action.SwitchTo? ==> s.action.thread in s.tcbs)
    ensures var e := Enqueue(SetState(s, t, Restart), t);
            e.tcbs == s.tcbs[t := s.tcbs[t].(state := Restart, queued := true)] && (e.cur, e.idle, e.action) == (s.cur, s.idle, s.action)
  {
  }

  lemma RestartKeeps(s: Sched, t: nat)
    requires Inv(s) && t in s.tcbs && t != s.idle
    ensures Inv(RestartThread(s, t))
  {
    if IsStopped(s.tcbs[t].state) {
      SetTcbKeeps(s, t, s.tcbs[t].(state := Restart));
      EnqueueKeeps(SetState(s, t, Restart), t);
      RestartTcbs(s, t);
      WakeOrder(s.tcbs, s.cur, s.idle, s.action, t, Restart, true);
      PossibleSwitchInv(Enqueue(SetState(s, t, Restart), t), t);
    }
  }

  function Stop(m: Tcbs, t: nat): Tcbs
    requires t in m
  {
    m[t := m[t].(state := Inactive, queued := false)]
  }

  lemma SuspendOrder(m: Tcbs, cur: nat, idle: nat, action: Action, t: nat)
    requires Order(m, cur, idle, action) && t in m && t != idle && action != SwitchTo(t)
    ensures Order(Stop(m, t), cur, idle, if t == cur && action == ResumeCurrent then ChooseNew else action)
  {
  }

  /** Suspending keeps the invariant exactly if the thread is not the one waiting to be switched
      to: that switch is not withdrawn, and `schedule` asserts that its target can run. */
  lemma SuspendKeeps(s: Sched, t: nat)
    requires Inv(s) && t in s.tcbs && t != s.idle
    ensures Inv(Suspend(s, t)) <==> s.action != SwitchTo(t)
  {
    SetTcbKeeps(s, t, s.tcbs[t].(state := Inactive));
    DequeueKeeps(SetState(s, t, Inactive), t);
    SuspendTcbs(s, t);
    if s.action != SwitchTo(t) { SuspendOrder(s.tcbs, s.cur, s.idle, s.action, t); }
  }

  lemma SuspendTcbs(s: Sched, t: nat)
    requires t in s.tcbs && (s.action.SwitchTo? ==> s.action.thread in s.tcbs)
    ensures var e := Suspend(s, t);
            && e.tcbs == Stop(s.tcbs, t) && (e.cur, e.idle) == (s.cur, s.idle)
            && e.action == if t == s.cur && s.action == ResumeCurrent then ChooseNew else s.action
  {
  }

  function Reprioritise(m: Tcbs, t: nat, prio: Prio): Tcbs
    requires t in m
  {
    m[t := m[t].(queued := false, prio := prio)]
  }

  lemma SetPriorityOrder(m: Tcbs, cur: nat, idle: nat, action: Action, t: nat, prio: Prio)
    requires Order(m, cur, idle, action) && t in m && t != idle
    ensures var m' := Reprioritise(m, t, prio);
            && Base(m', cur, idle, action) && LocatedExcept(m', cur, action, t)
            && (t != cur && !IsRunnable(m[t].state) ==> Order(m', cur, idle, action))
            && (t != cur && IsRunnable(m[t].state) ==> CanSwitch(m', cur, idle, action, t))
  {
  }

  lemma SetPriorityKeeps(s: Sched, t: nat, prio: Prio)
    requires Inv(s) && t in s.tcbs && t != s.idle && (t == s.cur ==> s.Runnable(t))
    ensures Inv(SetPriority(s, t, prio))
  {
    DequeueKeeps(s, t);
    var d := Dequeue(s, t);
    SetTcbKeeps(d, t, d.tcbs[t].(prio := prio));
    var s1 := SetTcb(d, t, d.tcbs[t].(prio := prio));
    assert s1.tcbs == Reprioritise(s.tcbs, t, prio);
    SetPriorityOrder(s.tcbs, s.cur, s.idle, s.action, t, prio);
    if !s1.Runnable(t) {
    } else if t == s.cur {
      RescheduleInv(s1);
    } else {
      PossibleSwitchInv(s1, t);
    }
  }

  lemma YieldKeeps(s: Sched)
    requires Inv(s) && s.Runnable(s.cur)
    ensures Inv(Yield(s))
  {
    DequeueKeeps(s, s.cur);
    var d := Dequeue(s, s.cur);
    AppendKeeps(d, s.cur);
    RescheduleInv(Append(d, s.cur));
  }

  lemma TimerTickKeeps(s: Sched)
    requires Inv(s)
    ensures Inv(TimerTick(s))
  {
    var tcb := s.tcbs[s.cur];
    if tcb.state == Running {
      if tcb.timeSlice > 1 {
        SetTcbKeeps(s, s.cur, tcb.(timeSlice := tcb.timeSlice - 1));
      } else {
        SetTcbKeeps(s, s.cur, tcb.(timeSlice := TIME_SLICE));
        var s1 := SetTcb(s, s.cur, tcb.(timeSlice := TIME_SLICE));
        AppendKeeps(s1, s.cur);
        RescheduleInv(Append(s1, s.cur));
      }
    }
  }

  lemma RestartOrder(m: Tcbs, cur: nat, idle: nat, action: Action, t: nat)
    requires Base(m, cur, idle, action) && LocatedExcept(m, cur, action, idle) && t in m && t != idle
    ensures var m' := m[t := m[t].(state := Restart, queued := true)];
            Base(m', cur, idle, action) && LocatedExcept(m', cur, action, idle)
  {
  }

  lemma {:induction false} WakeAllKeeps(s: Sched, ts: seq<nat>)
    requires QueuesOk(s) && Base(s.tcbs, s.cur, s.idle, s.action) && LocatedExcept(s.tcbs, s.cur, s.action, s.idle)
    requires forall i :: 0 <= i < |ts| ==> ts[i] in s.tcbs && ts[i] != s.idle
    ensures Inv(WakeAll(s, ts))
    decreases |ts|
  {
    if ts == [] {
      RescheduleInv(s);
    } else {
      var t := ts[0];
      SetTcbKeeps(s, t, s.tcbs[t].(state := Restart));
      EnqueueKeeps(SetState(s, t, Restart), t);
      RestartTcbs(s, t);
      RestartOrder(s.tcbs, s.cur, s.idle, s.action, t);
      WakeAllKeeps(Enqueue(SetState(s, t, Restart), t), ts[1..]);
    }
  }

  // ----- schedule -----

  ghost predicate AllQueued(m: Tcbs) { forall t :: t in m && IsRunnable(m[t].state) ==> m[t].queued }

  /** The head of the highest non-empty queue exists and has that priority. */
  lemma HighestHead(s: Sched)
    requires QueuesOk(s) && !AllEmpty(s.queues)
    ensures var h := GetHighestPrio(s.queues);
            && s.queues[h] != [] && s.queues[h][0] in s.tcbs
            && s.tcbs[s.queues[h][0]].queued && s.tcbs[s.queues[h][0]].prio == h
  {
    var h := GetHighestPrio(s.queues);
    var i :| 0 <= i < NUM_PRIORITIES && s.queues[i] != [];
    assert s.queues[h][0] in s.queues[h];
  }

  /** The priority test of `is_highest_prio` speaks about every queued thread. */
  lemma HighestCovers(s: Sched, p: Prio)
    requires QueuesOk(s)
    ensures IsHighestPrio(s.queues, p) <==> forall t :: t in s.tcbs && s.tcbs[t].queued ==> s.tcbs[t].prio <= p
    ensures AllEmpty(s.queues) <==> forall t :: t in s.tcbs ==> !s.tcbs[t].queued
  {
    forall t | t in s.tcbs && s.tcbs[t].queued ensures s.tcbs[t].prio <= GetHighestPrio(s.queues) && !AllEmpty(s.queues) {
      assert t in s.queues[s.tcbs[t].prio];
    }
    if !AllEmpty(s.queues) { HighestHead(s); }
  }

  lemma SwitchedOrder(m: Tcbs, idle: nat, t: nat)
    requires idle in m && m[idle].state == IdleThread && t in m
    requires forall u :: u in m && m[u].queued ==> IsRunnable(m[u].state)
    requires if t == idle then forall u :: u in m ==> !m[u].queued
             else IsRunnable(m[t].state) && forall u :: u in m && m[u].queued ==> m[u].prio <= m[t].prio
    requires forall u :: u in m && IsRunnable(m[u].state) && u != t ==> m[u].queued
    ensures Order(m[t := m[t].(queued := false)], t, idle, ResumeCurrent)
  {
  }

  /** Choosing the head of the highest queue is right once every runnable thread is queued. */
  lemma ChooseKeeps(s: Sched)
    requires QueuesOk(s) && Base(s.tcbs, s.cur, s.idle, s.action) && AllQueued(s.tcbs)
    ensures Closed(s) && Inv(ChooseThread(s).(action := ResumeCurrent))
  {
    InvClosed(s);
    HighestCovers(s, GetHighestPrio(s.queues));
    if !AllEmpty(s.queues) { HighestHead(s); }
    var t := if AllEmpty(s.queues) then s.idle else s.queues[GetHighestPrio(s.queues)][0];
    DequeueKeeps(s, t);
    SwitchedOrder(s.tcbs, s.idle, t);
  }

  /** The direct switch skips the bitmaps unless the candidate is below the current thread. */
  lemma DirectSwitchKeeps(s: Sched, c: nat)
    requires QueuesOk(s) && Base(s.tcbs, s.cur, s.idle, s.action) && s.action == SwitchTo(c)
    requires forall t :: t in s.tcbs && s.Runnable(t) && t != c ==> s.tcbs[t].queued
    requires var prio := s.tcbs[c].prio;
             || IsHighestPrio(s.queues, prio)
             || (&& s.cur != s.idle && s.tcbs[s.cur].prio <= prio
                 && forall t :: t in s.tcbs && s.tcbs[t].queued && t != c ==> s.tcbs[t].prio <= s.tcbs[s.cur].prio)
    ensures Inv(SwitchToThread(s, c).(action := ResumeCurrent))
  {
    HighestCovers(s, s.tcbs[c].prio);
    DequeueKeeps(s, c);
    SwitchedOrder(s.tcbs, s.idle, c);
  }

  /** Everything but the candidate `c` is queued, and not above the current thread. */
  ghost predicate CandidateReady(m: Tcbs, cur: nat, idle: nat, c: nat)
    requires cur in m
  {
    && (forall t :: t in m && IsRunnable(m[t].state) && t != c ==> m[t].queued)
    && (cur != idle ==> forall t :: t in m && m[t].queued && t != c ==> m[t].prio <= m[cur].prio)
  }

  /** The current thread, if it can still run, goes back into its queue. */
  function Park(s: Sched): Sched
    requires s.cur in s.tcbs
  {
    if s.Runnable(s.cur) then Enqueue(s, s.cur) else s
  }

  lemma ParkOrder(m: Tcbs, cur: nat, idle: nat, action: Action)
    requires Order(m, cur, idle, action) && action != ResumeCurrent
    ensures var m' := if IsRunnable(m[cur].state) then Queue(m, cur) else m;
            && Base(m', cur, idle, action)
            && (action == ChooseNew ==> AllQueued(m'))
            && (action.SwitchTo? ==> CandidateReady(m', cur, idle, action.thread))
  {
  }

  lemma ParkKeeps(s: Sched)
    requires Inv(s) && s.action != ResumeCurrent
    ensures var p := Park(s);
            && QueuesOk(p) && Base(p.tcbs, p.cur, p.idle, p.action) && (p.cur, p.idle, p.action) == (s.cur, s.idle, s.action)
            && (p.action == ChooseNew ==> AllQueued(p.tcbs))
            && (p.action.SwitchTo? ==> CandidateReady(p.tcbs, p.cur, p.idle, p.action.thread))
  {
    EnqueueKeeps(s, s.cur);
    ParkOrder(s.tcbs, s.cur, s.idle, s.action);
  }

  lemma TryCandidateKeeps(s: Sched, wasRunnable: bool, c: nat)
    requires QueuesOk(s) && Base(s.tcbs, s.cur, s.idle, s.action) && s.action == SwitchTo(c)
    requires CandidateReady(s.tcbs, s.cur, s.idle, c)
    ensures Closed(s) && Inv(TryCandidate(s, wasRunnable, c).(action := ResumeCurrent))
  {
    InvClosed(s);
    var prio, curPrio := s.tcbs[c].prio, s.tcbs[s.cur].prio;
    if (s.cur == s.idle || prio < curPrio) && !IsHighestPrio(s.queues, prio) {
      EnqueueKeeps(s, c);
      ChooseKeeps(Enqueue(s, c));
    } else if wasRunnable && prio == curPrio {
      AppendKeeps(s, c);
      ChooseKeeps(Append(s, c));
    } else {
      DirectSwitchKeeps(s, c);
    }
  }

  /** `schedule` keeps the invariant and resolves the pending action. */
  lemma ScheduleKeeps(s: Sched)
    requires Inv(s)
    ensures Closed(s) && Inv(Schedule(s)) && Schedule(s).action == ResumeCurrent
  {
    InvClosed(s);
    if s.action != ResumeCurrent {
      ParkKeeps(s);
      var p := Park(s);
      if s.action == ChooseNew {
        ChooseKeeps(p);
        assert Schedule(s) == ChooseThread(p).(action := ResumeCurrent);
      } else {
        TryCandidateKeeps(p, s.Runnable(s.cur), s.action.thread);
        assert Schedule(s) == TryCandidate(p, s.Runnable(s.cur), s.action.thread).(action := ResumeCurrent);
      }
    }
  }

  // ----- whole runs -----

  datatype Step =
    | Block(state: ThreadState)             // the current thread blocks in its own system call
    | WakeUp(t: nat)                        // an IPC or signal makes a blocked thread Running
    | RestartIt(t: nat)
    | CancelAll(ts: seq<nat>)               // all threads waiting on an object are restarted
    | SuspendIt(t: nat)
    | SetPrio(t: nat, prio: Prio)
    | YieldCpu
    | Tick
    | DoSchedule

  /** The states in which the kernel takes a step.  A thread blocks itself, or changes
      its own priority, only while it runs; and no path suspends the thread that is
      waiting to be switched to. */
  ghost predicate Enabled(s: Sched, step: Step)
    requires Inv(s)
  {
    match step
    case Block(ts) => s.cur != s.idle && !s.tcbs[s.cur].queued && !IsRunnable(ts)
    case WakeUp(t) => t in s.tcbs && t != s.idle && !s.Runnable(t)
    case RestartIt(t) => t in s.tcbs && t != s.idle
    case CancelAll(ts) => forall i :: 0 <= i < |ts| ==> ts[i] in s.tcbs && ts[i] != s.idle
    case SuspendIt(t) => t in s.tcbs && t != s.idle && s.action != SwitchTo(t)
    case SetPrio(t, _) => t in s.tcbs && t != s.idle && (t == s.cur ==> s.Runnable(t))
    case YieldCpu => s.Runnable(s.cur)
    case Tick => true
    case DoSchedule => true
  }

  ghost function Next(s: Sched, step: Step): (r: Sched)
    requires Inv(s) && Enabled(s, step)
    ensures Inv(r)
  {
    match step
    case Block(ts) => (BlockKeeps(s, ts); SetState(s, s.cur, ts))
    case WakeUp(t) => (WakeKeeps(s, t); Wake(s, t))
    case RestartIt(t) => (RestartKeeps(s, t); RestartThread(s, t))
    case CancelAll(ts) => (WakeAllKeeps(s, ts); WakeAll(s, ts))
    case SuspendIt(t) => (SuspendKeeps(s, t); Suspend(s, t))
    case SetPrio(t, prio) => (SetPriorityKeeps(s, t, prio); SetPriority(s, t, prio))
    case YieldCpu => (YieldKeeps(s); Yield(s))
    case Tick => (TimerTickKeeps(s); TimerTick(s))
    case DoSchedule => (ScheduleKeeps(s); Schedule(s))
  }

  ghost predicate Legal(s: Sched, steps: seq<Step>)
    requires Inv(s)
    decreases |steps|
  {
    steps == [] || (Enabled(s, steps[0]) && Legal(Next(s, steps[0]), steps[1..]))
  }

  ghost function Run(s: Sched, steps: seq<Step>): (r: Sched)
    requires Inv(s) && Legal(s, steps)
    ensures Inv(r)
    decreases |steps|
  {
    if steps == [] then s else Run(Next(s, steps[0]), steps[1..])
  }

  /** In every run, a runnable thread is the current one, the pending candidate, or in the
      ready queue of its priority: no wake-up is lost. */
  lemma {:induction false} NoThreadLost(s: Sched, steps: seq<Step>, t: nat)
    requires Inv(s) && Legal(s, steps)
    ensures var e := Run(s, steps);
            e.Runnable(t) ==> t == e.cur || e.action == SwitchTo(t) || t in e.queues[e.tcbs[t].prio]
  {
    assert Located(Run(s, steps).tcbs, Run(s, steps).cur, Run(s, steps).action, t) || !Run(s, steps).Runnable(t);
  }

  lemma {:induction false} RunSnoc(s: Sched, steps: seq<Step>, last: Step)
    requires Inv(s) && Legal(s, steps + [last])
    ensures Legal(s, steps) && Enabled(Run(s, steps), last)
    ensures Run(s, steps + [last]) == Next(Run(s, steps), last)
    decreases |steps|
  {
    if steps == [] {
      assert steps + [last] == [last];
      assert Run(Next(s, last), []) == Next(s, last);
    } else {
      assert (steps + [last])[1..] == steps[1..] + [last];
      RunSnoc(Next(s, steps[0]), steps[1..], last);
    }
  }

  /** Whenever `schedule` has just run, the current thread is runnable and no ready thread
      has a higher priority; the idle thread runs only if nothing else can. */
  lemma {:induction false} ScheduleChoosesBest(s: Sched, steps: seq<Step>)
    requires Inv(s) && Legal(s, steps + [DoSchedule])
    ensures var e := Run(s, steps + [DoSchedule]);
            && e.action == ResumeCurrent
            && (e.cur != e.idle ==> e.Runnable(e.cur))
            && (forall t :: e.Runnable(t) && t != e.cur ==> e.cur != e.idle && e.tcbs[t].prio <= e.tcbs[e.cur].prio)
  {
    RunSnoc(s, steps, DoSchedule);
    ScheduleKeeps(Run(s, steps));
    var e := Run(s, steps + [DoSchedule]);
    forall t | e.Runnable(t) && t != e.cur ensures e.cur != e.idle && e.tcbs[t].prio <= e.tcbs[e.cur].prio {
      assert Located(e.tcbs, e.cur, e.action, t);
    }
  }

  /** What boot leaves behind: empty queues, and no runnable thread but the initial one, which is
      the pending candidate of the first core; the other cores resume their idle thread.
      Threads that are created later are inactive until then. */
  ghost predicate BootTcbs(m: Tcbs, idle: nat, action: Action) {
    && idle in m && m[idle].state == IdleThread
    && (forall t :: t in m ==> !m[t].queued)
    && (forall t :: t in m && IsRunnable(m[t].state) ==> action == SwitchTo(t))
    && match action
       case SwitchTo(t) => t in m && IsRunnable(m[t].state)
       case ResumeCurrent => true
       case ChooseNew => false
  }

  ghost function Boot(m: Tcbs, idle: nat, action: Action): (s: Sched)
    requires BootTcbs(m, idle, action)
    ensures Inv(s)
  {
    Sched(m, seq(NUM_PRIORITIES, i => []), idle, idle, action)
  }

  /** Suspending the initial thread before it has run. */
  lemma SuspendExample()
    ensures var m: Tcbs := map[1 := Tcb(IdleThread, 0, 0, false), 2 := Tcb(Running, 255, TIME_SLICE, false)];
      BootTcbs(m, 1, SwitchTo(2)) && !Inv(Suspend(Boot(m, 1, SwitchTo(2)), 2))
  {
    var m: Tcbs := map[1 := Tcb(IdleThread, 0, 0, false), 2 := Tcb(Running, 255, TIME_SLICE, false)];
    SuspendKeeps(Boot(m, 1, SwitchTo(2)), 2);
  }

  /** Both from boot: in every run no runnable thread is lost, and after `schedule` the best
      thread runs. */
  lemma {:induction false} RunsFromBoot(m: Tcbs, idle: nat, action: Action, steps: seq<Step>, t: nat)
    requires BootTcbs(m, idle, action) && Legal(Boot(m, idle, action), steps)
    ensures var e := Run(Boot(m, idle, action), steps); e.Runnable(t) ==>
      && (t == e.cur || e.action == SwitchTo(t) || t in e.queues[e.tcbs[t].prio])
      && (steps != [] && steps[|steps| - 1] == DoSchedule && t != e.cur ==>
            e.cur != e.idle && e.Runnable(e.cur) && e.tcbs[t].prio <= e.tcbs[e.cur].prio)
  {
    hide BootTcbs, Boot, Inv, Enabled, Next, Legal, Run;
    var s := Boot(m, idle, action);
    NoThreadLost(s, steps, t);
    if steps != [] && steps[|steps| - 1] == DoSchedule {
      var before := steps[..|steps| - 1];
      assert steps == before + [DoSchedule];
      ScheduleChoosesBest(s, before);
    }
  }

  // ----- round robin -----

  /** The current thread runs at the highest priority that is ready, and nothing is pending. */
  ghost predicate RunsAtTop(s: Sched) {
    && Inv(s) && s.action == ResumeCurrent && s.cur != s.idle && s.Runnable(s.cur) && !s.tcbs[s.cur].queued
    && forall p: Prio :: s.queues[p] != [] ==> p <= s.tcbs[s.cur].prio
  }

  /** The current thread and those waiting at its priority. */
  ghost function Line(s: Sched): seq<nat>
    requires RunsAtTop(s)
  {
    [s.cur] + s.queues[s.tcbs[s.cur].prio]
  }

  ghost function YieldOnce(s: Sched): Sched
    requires RunsAtTop(s)
  {
    YieldKeeps(s);
    ScheduleKeeps(Yield(s));
    Schedule(Yield(s))
  }

  /** `y` is `s` with the current thread, now `tcb`, at the end of its queue and a choice pending. */
  ghost predicate ToTheBack(s: Sched, y: Sched, tcb: Tcb) {
    && s.cur in s.tcbs && tcb.queued && tcb.prio == s.tcbs[s.cur].prio && IsRunnable(tcb.state)
    && y == s.(queues := s.queues[tcb.prio := s.queues[tcb.prio] + [s.cur]], tcbs := s.tcbs[s.cur := tcb], action := ChooseNew)
  }

  /** Then `schedule` lets the thread run that has waited longest. */
  lemma BackRotates(s: Sched, y: Sched, tcb: Tcb)
    requires RunsAtTop(s) && Inv(y) && ToTheBack(s, y, tcb)
    ensures Closed(y) && RunsAtTop(Schedule(y)) && Line(Schedule(y)) == Line(s)[1..] + [s.cur]
    ensures var e := Schedule(y); e.tcbs.Keys == s.tcbs.Keys && forall t :: t in s.tcbs ==>
      e.tcbs[t] == (if t == s.cur then tcb else s.tcbs[t]).(queued := e.tcbs[t].queued)
  {
    var p := tcb.prio;
    TopIsHighest(y.queues, p);
    ScheduleKeeps(y);
    var t := y.queues[p][0];
    assert t in y.queues[p];
    ScheduleAfterYield(y, p, t);
    hide Schedule, Inv, QueuesOk, GetHighestPrio, AllEmpty, Closed;
    BackLine(s, y, tcb, Schedule(y), t);
  }

  lemma BackLine(s: Sched, y: Sched, tcb: Tcb, e: Sched, t: nat)
    requires RunsAtTop(s) && ToTheBack(s, y, tcb) && Inv(e) && t in y.tcbs && IsRunnable(y.tcbs[t].state) && t != y.idle
    requires y.queues[tcb.prio] != [] && y.queues[tcb.prio][0] == t && y.tcbs[t].prio == tcb.prio
    requires e == y.(queues := y.queues[tcb.prio := y.queues[tcb.prio][1..]], tcbs := y.tcbs[t := y.tcbs[t].(queued := false)],
                     cur := t, action := ResumeCurrent)
    ensures RunsAtTop(e) && Line(e) == Line(s)[1..] + [s.cur]
    ensures e.tcbs.Keys == s.tcbs.Keys && forall u :: u in s.tcbs ==>
      e.tcbs[u] == (if u == s.cur then tcb else s.tcbs[u]).(queued := e.tcbs[u].queued)
  {
    hide Inv;
    assert e.queues[tcb.prio] == y.queues[tcb.prio][1..];
  }

  /** Yielding lets the thread run that has waited longest, and goes to the end of the line. */
  lemma YieldRotates(s: Sched)
    requires RunsAtTop(s)
    ensures RunsAtTop(YieldOnce(s)) && Line(YieldOnce(s)) == Line(s)[1..] + [s.cur]
  {
    YieldKeeps(s);
    assert ToTheBack(s, Yield(s), s.tcbs[s.cur].(queued := true));
    hide Schedule, Yield, QueuesOk, ToTheBack;
    BackRotates(s, Yield(s), s.tcbs[s.cur].(queued := true));
  }

  lemma ScheduleAfterYield(y: Sched, p: Prio, t: nat)
    requires Inv(y) && Closed(y) && y.action == ChooseNew && y.Runnable(y.cur) && y.tcbs[y.cur].queued
    requires GetHighestPrio(y.queues) == p && !AllEmpty(y.queues) && y.queues[p] != [] && y.queues[p][0] == t
    ensures t in y.tcbs && y.tcbs[t].queued && y.tcbs[t].prio == p
    ensures Schedule(y) == y.(queues := y.queues[p := y.queues[p][1..]], tcbs := y.tcbs[t := y.tcbs[t].(queued := false)],
                              cur := t, action := ResumeCurrent)
  {
    HighestHead(y);
    WithoutIsCut(y.queues[p], 0);
    hide Inv, Order, QueuesOk, GetHighestPrio, AllEmpty;
    assert Cut(y.queues[p], 0) == y.queues[p][1..];
  }

  lemma TopIsHighest(queues: Queues, p: Prio)
    requires queues[p] != [] && forall i: Prio :: queues[i] != [] ==> i <= p
    ensures !AllEmpty(queues) && GetHighestPrio(queues) == p
  {
  }

  ghost function YieldTimes(s: Sched, k: nat): Sched
    requires RunsAtTop(s)
    decreases k
  {
    if k == 0 then s else YieldRotates(s); YieldTimes(YieldOnce(s), k - 1)
  }

  /** Round robin: after `k` yields the line has moved up by `k`, so everyone at the top
      priority runs once per round, in the same order every time. */
  lemma {:induction false} RoundRobin(s: Sched, k: nat)
    requires RunsAtTop(s) && k <= |Line(s)|
    ensures RunsAtTop(YieldTimes(s, k)) && Line(YieldTimes(s, k)) == Line(s)[k..] + Line(s)[..k]
    decreases k
  {
    if k > 0 {
      YieldRotates(s);
      hide RunsAtTop, YieldOnce, Line;
      LineStarts(s);
      LineStarts(YieldOnce(s));
      RoundRobin(YieldOnce(s), k - 1);
      Rotated(Line(s), k);
    }
  }

  lemma LineStarts(s: Sched)
    requires RunsAtTop(s)
    ensures |Line(s)| > 0 && Line(s)[0] == s.cur
  {
  }

  lemma Rotated(l: seq<nat>, k: nat)
    requires 0 < k <= |l|
    ensures var m := l[1..] + [l[0]]; k - 1 <= |m| && m[k - 1..] + m[..k - 1] == l[k..] + l[..k]
  {
  }
}
