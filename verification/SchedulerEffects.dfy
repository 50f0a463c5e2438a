/** What each scheduler operation does to every thread, and that the direct switch of `schedule`
    makes the same choice as going through the queues. */
module SchedulerEffects {
  import opened Scheduler
  import opened SchedulerRuns
  import opened Sequences
  import opened ThreadStates

  // ----- what happens to a thread -----

  /** The state, priority and time slice of thread `u` after a step. */
  ghost function Expected(s: Sched, step: Step, u: nat): (ThreadState, Prio, nat)
    requires u in s.tcbs && s.cur in s.tcbs
  {
    var tcb := s.tcbs[u];
    var state := match step {
      case Block(ts) => if u == s.cur then ts else tcb.state
      case WakeUp(t) => if u == t then Running else tcb.state
      case RestartIt(t) => if u == t && IsStopped(tcb.state) then Restart else tcb.state
      case CancelAll(ts) => if u in ts then Restart else tcb.state
      case SuspendIt(t) => if u == t then Inactive else tcb.state
      case _ => tcb.state
    };
    var prio := if step.SetPrio? && u == step.t then step.prio else tcb.prio;
    var slice :=
      if !step.Tick? || u != s.cur || tcb.state != Running then tcb.timeSlice
      else if tcb.timeSlice > 1 then tcb.timeSlice - 1
      else TIME_SLICE;
    (state, prio, slice)
  }

  /** The fields of thread `u`. */
  function Fields(s: Sched, u: nat): (ThreadState, Prio, nat)
    requires u in s.tcbs
  {
    (s.tcbs[u].state, s.tcbs[u].prio, s.tcbs[u].timeSlice)
  }

  predicate Untouched(s: Sched, e: Sched, u: nat)
    requires u in s.tcbs
  {
    u in e.tcbs && Fields(e, u) == Fields(s, u)
  }

  lemma RescheduleTouches(s: Sched, u: nat)
    requires u in s.tcbs && (s.action.SwitchTo? ==> s.action.thread in s.tcbs)
    ensures Untouched(s, RescheduleRequired(s), u)
  {
  }

  lemma ChooseTouches(s: Sched, u: nat)
    requires s.idle in s.tcbs && (forall p: Prio, i :: 0 <= i < |s.queues[p]| ==> s.queues[p][i] in s.tcbs) && u in s.tcbs
    ensures Untouched(s, ChooseThread(s), u)
  {
    hide GetHighestPrio, AllEmpty;
  }

  lemma ScheduleTouches(s: Sched, u: nat)
    requires Inv(s) && Closed(s) && u in s.tcbs
    ensures Untouched(s, Schedule(s), u)
  {
    if s.action != ResumeCurrent {
      ParkKeeps(s);
      var s1 := if s.Runnable(s.cur) then Enqueue(s, s.cur) else s;
      InvClosed(s1);
      hide ChooseThread, Inv, Order, IsHighestPrio;
      ChooseTouches(s1, u);
      if s.action.SwitchTo? {
        CandidateTouches(s1, s.Runnable(s.cur), s.action.thread, u);
      }
    }
  }

  lemma CandidateTouches(s: Sched, wasRunnable: bool, c: nat, u: nat)
    requires QueuesOk(s) && Closed(s) && c in s.tcbs && u in s.tcbs
    ensures Untouched(s, TryCandidate(s, wasRunnable, c), u)
  {
    EnqueueKeeps(s, c);
    InvClosed(Enqueue(s, c));
    AppendKeeps(s, c);
    InvClosed(Append(s, c));
    hide ChooseThread, QueuesOk, IsHighestPrio;
    ChooseTouches(Enqueue(s, c), u);
    ChooseTouches(Append(s, c), u);
  }

  lemma {:induction false} WakeAllTouches(s: Sched, ts: seq<nat>, u: nat)
    requires (forall i :: 0 <= i < |ts| ==> ts[i] in s.tcbs) && (s.action.SwitchTo? ==> s.action.thread in s.tcbs) && u in s.tcbs
    ensures var e := WakeAll(s, ts);
      u in e.tcbs && Fields(e, u) == (if u in ts then Restart else s.tcbs[u].state, s.tcbs[u].prio, s.tcbs[u].timeSlice)
    decreases |ts|
  {
    if ts == [] {
      RescheduleTouches(s, u);
    } else {
      WakeAllTouches(Enqueue(SetState(s, ts[0], Restart), ts[0]), ts[1..], u);
    }
  }

  /** What the operations rely on. */
  predicate Known(s: Sched) { s.cur in s.tcbs && (s.action.SwitchTo? ==> s.action.thread in s.tcbs) }

  lemma StateEffect(s: Sched, t: nat, ts: ThreadState, u: nat)
    requires Known(s) && t in s.tcbs && u in s.tcbs
    ensures var e := SetState(s, t, ts);
      && Known(e) && e.cur == s.cur && e.tcbs.Keys == s.tcbs.Keys
      && Fields(e, u) == (if u == t then ts else s.tcbs[u].state, s.tcbs[u].prio, s.tcbs[u].timeSlice)
  {
  }

  lemma SwitchEffect(s: Sched, t: nat, u: nat)
    requires Known(s) && t in s.tcbs && u in s.tcbs
    ensures Untouched(s, PossibleSwitchTo(s, t), u)
  {
  }

  lemma WakeEffect(s: Sched, t: nat, u: nat)
    requires Known(s) && t in s.tcbs && u in s.tcbs
    ensures u in Wake(s, t).tcbs && Fields(Wake(s, t), u) == (if u == t then Running else s.tcbs[u].state, s.tcbs[u].prio, s.tcbs[u].timeSlice)
  {
    hide SetState, PossibleSwitchTo;
    StateEffect(s, t, Running, u);
    SwitchEffect(SetState(s, t, Running), t, u);
  }

  lemma RestartEffect(s: Sched, t: nat, u: nat)
    requires Known(s) && t in s.tcbs && u in s.tcbs
    ensures var e := RestartThread(s, t);
      u in e.tcbs && Fields(e, u) == (if u == t && IsStopped(s.tcbs[u].state) then Restart else s.tcbs[u].state, s.tcbs[u].prio, s.tcbs[u].timeSlice)
  {
    hide SetState, PossibleSwitchTo;
    StateEffect(s, t, Restart, u);
    SwitchEffect(Enqueue(SetState(s, t, Restart), t), t, u);
  }

  lemma SuspendEffect(s: Sched, t: nat, u: nat)
    requires Known(s) && t in s.tcbs && u in s.tcbs
    ensures var e := Suspend(s, t);
      u in e.tcbs && Fields(e, u) == (if u == t then Inactive else s.tcbs[u].state, s.tcbs[u].prio, s.tcbs[u].timeSlice)
  {
    hide SetState;
    StateEffect(s, t, Inactive, u);
  }

  lemma SetPrioEffect(s: Sched, t: nat, prio: Prio, u: nat)
    requires Known(s) && t in s.tcbs && u in s.tcbs
    ensures var e := SetPriority(s, t, prio);
      u in e.tcbs && Fields(e, u) == (s.tcbs[u].state, if u == t then prio else s.tcbs[u].prio, s.tcbs[u].timeSlice)
  {
    var d := Dequeue(s, t);
    var s1 := SetTcb(d, t, d.tcbs[t].(prio := prio));
    hide PossibleSwitchTo, RescheduleRequired;
    SwitchEffect(s1, t, u);
    RescheduleTouches(s1, u);
  }

  lemma TickEffect(s: Sched, u: nat)
    requires Known(s) && u in s.tcbs
    ensures u in TimerTick(s).tcbs && Fields(TimerTick(s), u) == Expected(s, Tick, u)
  {
    var s1 := Append(SetTcb(s, s.cur, s.tcbs[s.cur].(timeSlice := TIME_SLICE)), s.cur);
    hide RescheduleRequired;
    RescheduleTouches(s1, u);
  }

  lemma YieldUntouched(s: Sched, u: nat)
    requires Known(s) && u in s.tcbs
    ensures Untouched(s, Yield(s), u)
  {
    hide RescheduleRequired;
    RescheduleTouches(Append(Dequeue(s, s.cur), s.cur), u);
  }

  lemma InvKnown(s: Sched)
    requires Inv(s)
    ensures Known(s) && Closed(s)
  {
    InvClosed(s);
  }

  /** Every operation changes the state, the priority or the time slice of the thread it is about,
      as it should, and of no other. */
  lemma StepEffect(s: Sched, step: Step, u: nat)
    requires Inv(s) && Enabled(s, step) && u in s.tcbs
    ensures s.cur in s.tcbs && u in Next(s, step).tcbs && Fields(Next(s, step), u) == Expected(s, step, u)
  {
    InvKnown(s);
    hide Inv, SetState, Wake, RestartThread, WakeAll, Suspend, SetPriority, Yield, TimerTick, Schedule;
    match step
    case Block(ts) => StateEffect(s, s.cur, ts, u);
    case WakeUp(t) => WakeEffect(s, t, u);
    case RestartIt(t) => RestartEffect(s, t, u);
    case CancelAll(ts) => WakeAllTouches(s, ts, u);
    case SuspendIt(t) => SuspendEffect(s, t, u);
    case SetPrio(t, prio) => SetPrioEffect(s, t, prio, u);
    case YieldCpu => YieldUntouched(s, u);
    case Tick => TickEffect(s, u);
    case DoSchedule => ScheduleTouches(s, u);
  }

  // ----- the direct switch -----

  /** A candidate that is also queued, because it was restarted, is first in its queue. */
  ghost predicate CandidateFirst(s: Sched) {
    s.action.SwitchTo? ==>
      var c := s.action.thread;
      c in s.tcbs && (s.tcbs[c].queued ==> s.queues[s.tcbs[c].prio] != [] && s.queues[s.tcbs[c].prio][0] == c)
  }

  /** `schedule` without its direct switch: the current thread, if it can run, goes to the front of
      its queue; a candidate goes to the front of its own, or to the end if it is the same; and
      the first thread of the highest priority runs. */
  function SimpleSchedule(s: Sched): Sched
    requires Closed(s)
  {
    if s.action == ResumeCurrent then s
    else
      var wasRunnable := s.Runnable(s.cur);
      var s1 := if wasRunnable then Enqueue(s, s.cur) else s;
      var s2 :=
        if s.action == ChooseNew then s1
        else if wasRunnable && s.tcbs[s.action.thread].prio == s.tcbs[s.cur].prio then Append(s1, s.action.thread)
        else Enqueue(s1, s.action.thread);
      ChooseThread(s2).(action := ResumeCurrent)
  }

  /** Queueing a thread at the top and choosing is switching to it. */
  lemma EnqueueAndChoose(s: Sched, c: nat)
    requires Closed(s) && QueuesOk(s) && c in s.tcbs
    requires s.tcbs[c].queued ==> s.queues[s.tcbs[c].prio] != [] && s.queues[s.tcbs[c].prio][0] == c
    requires forall p: Prio :: s.queues[p] != [] ==> p <= s.tcbs[c].prio
    ensures Closed(Enqueue(s, c)) && ChooseThread(Enqueue(s, c)) == SwitchToThread(s, c)
  {
    EnqueueKeeps(s, c);
    InvClosed(Enqueue(s, c));
    TopIsHighest(Enqueue(s, c).queues, s.tcbs[c].prio);
    if !s.tcbs[c].queued { EnqueueUndone(s, c); }
    hide GetHighestPrio, AllEmpty, QueuesOk, SwitchToThread;
  }

  lemma EnqueueUndone(s: Sched, c: nat)
    requires QueuesOk(s) && c in s.tcbs && !s.tcbs[c].queued
    ensures SwitchToThread(Enqueue(s, c), c) == SwitchToThread(s, c)
  {
    var e, p := Enqueue(s, c), s.tcbs[c].prio;
    assert c !in s.queues[p];
    WithoutAbsent(s.queues[p], c);
    hide QueuesOk;
    assert e.queues[p][1..] == s.queues[p];
    assert Without(e.queues[p], c) == [] + Without(e.queues[p][1..], c) == s.queues[p];
    assert SwitchToThread(e, c).tcbs == s.tcbs;
    assert SwitchToThread(e, c).queues == s.queues;
  }

  /** Where `schedule` switches directly, nothing queued beats the candidate. */
  lemma CandidateOnTop(s: Sched, c: nat)
    requires QueuesOk(s) && s.cur in s.tcbs && c in s.tcbs && CandidateReady(s.tcbs, s.cur, s.idle, c)
    requires !((s.cur == s.idle || s.tcbs[c].prio < s.tcbs[s.cur].prio) && !IsHighestPrio(s.queues, s.tcbs[c].prio))
    ensures forall p: Prio :: s.queues[p] != [] ==> p <= s.tcbs[c].prio
  {
    HighestCovers(s, s.tcbs[c].prio);
    forall p: Prio | s.queues[p] != [] ensures p <= s.tcbs[c].prio {
      assert s.queues[p][0] in s.queues[p];
    }
  }

  /** The direct switch makes the choice that going through the queues would make. */
  lemma ScheduleIsSimple(s: Sched)
    requires Inv(s) && CandidateFirst(s)
    ensures Closed(s) && Schedule(s) == SimpleSchedule(s)
  {
    InvClosed(s);
    if s.action.SwitchTo? {
      ParkKeeps(s);
      var s1, c := if s.Runnable(s.cur) then Enqueue(s, s.cur) else s, s.action.thread;
      InvClosed(s1);
      assert s.Runnable(s.cur) ==> s.cur != s.idle;
      hide Inv, Order, QueuesOk, ChooseThread, SwitchToThread, IsHighestPrio, Base;
      CandidateCase(s1, s.Runnable(s.cur), c);
    }
  }

  lemma CandidateCase(s: Sched, wasRunnable: bool, c: nat)
    requires QueuesOk(s) && Closed(s) && CandidateReady(s.tcbs, s.cur, s.idle, c) && c in s.tcbs && (wasRunnable ==> s.cur != s.idle)
    requires s.tcbs[c].queued && !(wasRunnable && s.tcbs[c].prio == s.tcbs[s.cur].prio) ==> s.queues[s.tcbs[c].prio] != [] && s.queues[s.tcbs[c].prio][0] == c
    ensures Closed(Append(s, c)) && Closed(Enqueue(s, c))
    ensures TryCandidate(s, wasRunnable, c) ==
      if wasRunnable && s.tcbs[c].prio == s.tcbs[s.cur].prio then ChooseThread(Append(s, c)) else ChooseThread(Enqueue(s, c))
  {
    EnqueueKeeps(s, c);
    AppendKeeps(s, c);
    InvClosed(Enqueue(s, c));
    InvClosed(Append(s, c));
    hide QueuesOk, ChooseThread, SwitchToThread, IsHighestPrio, Closed;
    var fastfail := (s.cur == s.idle || s.tcbs[c].prio < s.tcbs[s.cur].prio) && !IsHighestPrio(s.queues, s.tcbs[c].prio);
    if !fastfail && !(wasRunnable && s.tcbs[c].prio == s.tcbs[s.cur].prio) {
      CandidateOnTop(s, c);
      EnqueueAndChoose(s, c);
    }
  }

  /** A switch that is asked for while none is pending: the candidate is not queued, or first. */
  lemma SwitchFirst(s: Sched, t: nat)
    requires t in s.tcbs && (s.action.SwitchTo? ==> s.action.thread in s.tcbs)
    requires s.tcbs[t].queued ==> s.queues[s.tcbs[t].prio] != [] && s.queues[s.tcbs[t].prio][0] == t
    ensures CandidateFirst(PossibleSwitchTo(s, t))
  {
  }

  lemma DequeueFirst(s: Sched, t: nat)
    requires t in s.tcbs && CandidateFirst(s) && s.action != SwitchTo(t)
    ensures CandidateFirst(Dequeue(s, t))
  {
  }

  lemma {:induction false} WakeAllFirst(s: Sched, ts: seq<nat>)
    requires (forall i :: 0 <= i < |ts| ==> ts[i] in s.tcbs) && (s.action.SwitchTo? ==> s.action.thread in s.tcbs)
    ensures WakeAll(s, ts).action == ChooseNew
    decreases |ts|
  {
    if ts != [] { WakeAllFirst(Enqueue(SetState(s, ts[0], Restart), ts[0]), ts[1..]); }
  }

  lemma RestartFirst(s: Sched, t: nat)
    requires Known(s) && t in s.tcbs && CandidateFirst(s) && (s.tcbs[t].queued ==> IsRunnable(s.tcbs[t].state))
    ensures CandidateFirst(RestartThread(s, t))
  {
    if IsStopped(s.tcbs[t].state) {
      hide PossibleSwitchTo;
      SwitchFirst(Enqueue(SetState(s, t, Restart), t), t);
    }
  }

  lemma SetPrioFirst(s: Sched, t: nat, prio: Prio)
    requires Known(s) && t in s.tcbs && CandidateFirst(s) && (s.action == SwitchTo(t) ==> s.Runnable(t))
    ensures CandidateFirst(SetPriority(s, t, prio))
  {
    var d := Dequeue(s, t);
    var s1 := SetTcb(d, t, d.tcbs[t].(prio := prio));
    if s.action != SwitchTo(t) { DequeueFirst(s, t); }
    hide PossibleSwitchTo;
    if s1.Runnable(t) && t != s.cur { SwitchFirst(s1, t); }
  }

  lemma WakeFirst(s: Sched, t: nat)
    requires Known(s) && t in s.tcbs && CandidateFirst(s) && !s.tcbs[t].queued
    ensures CandidateFirst(Wake(s, t))
  {
    hide PossibleSwitchTo;
    SwitchFirst(SetState(s, t, Running), t);
  }

  lemma SetStateFirst(s: Sched, t: nat, ts: ThreadState)
    requires Known(s) && t in s.tcbs && CandidateFirst(s)
    ensures CandidateFirst(SetState(s, t, ts))
  {
  }

  lemma SuspendFirst(s: Sched, t: nat)
    requires Known(s) && t in s.tcbs && CandidateFirst(s) && s.action != SwitchTo(t)
    ensures CandidateFirst(Suspend(s, t))
  {
    SetStateFirst(s, t, Inactive);
    DequeueFirst(SetState(s, t, Inactive), t);
  }

  lemma TickFirst(s: Sched)
    requires Known(s) && CandidateFirst(s)
    ensures CandidateFirst(TimerTick(s))
  {
  }

  lemma QueuedCanRun(s: Sched, t: nat)
    requires Inv(s) && t in s.tcbs
    ensures s.tcbs[t].queued || s.action == SwitchTo(t) ==> IsRunnable(s.tcbs[t].state)
  {
  }

  /** Every operation keeps that. */
  lemma FirstKept(s: Sched, step: Step)
    requires Inv(s) && Enabled(s, step) && CandidateFirst(s)
    ensures CandidateFirst(Next(s, step))
  {
    InvKnown(s);
    hide Inv, CandidateFirst, SetState, Wake, RestartThread, WakeAll, Suspend, SetPriority, TimerTick, Schedule;
    match step {
      case Block(ts) => SetStateFirst(s, s.cur, ts);
      case WakeUp(t) => QueuedCanRun(s, t); WakeFirst(s, t);
      case RestartIt(t) => QueuedCanRun(s, t); RestartFirst(s, t);
      case CancelAll(ts) => WakeAllFirst(s, ts); NoCandidate(WakeAll(s, ts));
      case SuspendIt(t) => SuspendFirst(s, t);
      case SetPrio(t, prio) => QueuedCanRun(s, t); SetPrioFirst(s, t, prio);
      case YieldCpu => NoCandidate(Yield(s));
      case Tick => TickFirst(s);
      case DoSchedule => ScheduleKeeps(s); NoCandidate(Schedule(s));
    }
  }

  lemma NoCandidate(s: Sched)
    requires !s.action.SwitchTo?
    ensures CandidateFirst(s)
  {
  }

  lemma {:induction false} FirstInRuns(s: Sched, steps: seq<Step>)
    requires Inv(s) && Legal(s, steps) && CandidateFirst(s)
    ensures CandidateFirst(Run(s, steps))
    decreases |steps|
  {
    hide Next, Enabled, Inv, CandidateFirst;
    if steps != [] {
      FirstKept(s, steps[0]);
      FirstInRuns(Next(s, steps[0]), steps[1..]);
    }
  }

  /** So it does in every state that any run from boot reaches. */
  lemma {:induction false} AlwaysSimple(m: Tcbs, idle: nat, action: Action, steps: seq<Step>)
    requires BootTcbs(m, idle, action) && Legal(Boot(m, idle, action), steps)
    ensures var s := Run(Boot(m, idle, action), steps); Closed(s) && Schedule(s) == SimpleSchedule(s)
  {
    FirstInRuns(Boot(m, idle, action), steps);
    hide Inv, Closed, Schedule, SimpleSchedule, BootTcbs, Boot;
    ScheduleIsSimple(Run(Boot(m, idle, action), steps));
  }

  // ----- waking a thread -----

  function WithTcb(s: Sched, t: nat, tcb: Tcb, q: seq<nat>): Sched { s.(tcbs := s.tcbs[t := tcb], queues := s.queues[tcb.prio := q]) }

  /** The first thread of the highest priority runs. */
  lemma ChooseFirst(s: Sched, c: nat, rest: seq<nat>)
    requires Closed(s) && c in s.tcbs && s.tcbs[c].queued && c !in rest && s.queues[s.tcbs[c].prio] == [c] + rest
    requires forall p: Prio :: s.queues[p] != [] ==> p <= s.tcbs[c].prio
    ensures ChooseThread(s) == WithTcb(s, c, s.tcbs[c].(queued := false), rest).(cur := c)
  {
    var p := s.tcbs[c].prio;
    TopIsHighest(s.queues, p);
    WithoutAbsent(rest, c);
    assert s.queues[p][1..] == rest;
    assert Without(s.queues[p], c) == [] + Without(s.queues[p][1..], c) == rest;
    hide GetHighestPrio, AllEmpty;
  }

  /** What `Wake` and `schedule` see of it. */
  lemma Woken(s: Sched, t: nat)
    requires RunsAtTop(s) && t in s.tcbs && t != s.idle && !s.Runnable(t)
    ensures var w := Wake(s, t);
      && Inv(w) && Closed(w) && CandidateFirst(w) && w.Runnable(w.cur) && t != s.cur && !s.tcbs[t].queued
      && w == s.(tcbs := s.tcbs[t := s.tcbs[t].(state := Running)], action := SwitchTo(t))
      && s.cur !in s.queues[s.tcbs[s.cur].prio] && t !in s.queues[s.tcbs[t].prio]
      && s.cur in s.tcbs && !s.tcbs[s.cur].queued
  {
    WakeKeeps(s, t);
    QueuedCanRun(s, t);
    InvClosed(Wake(s, t));
  }

  /** The current thread parked, and another one placed. */
  lemma Parked(w: Sched, t: nat)
    requires Inv(w) && w.cur in w.tcbs && t in w.tcbs
    ensures Closed(Append(Enqueue(w, w.cur), t)) && Closed(Enqueue(Enqueue(w, w.cur), t))
  {
    EnqueueKeeps(w, w.cur);
    var s1 := Enqueue(w, w.cur);
    EnqueueKeeps(s1, t);
    AppendKeeps(s1, t);
    hide QueuesOk;
    InvClosed(Enqueue(s1, t));
    InvClosed(Append(s1, t));
  }

  /** Where a thread waits that does not beat the current one: last in its queue, or first if its
      priority is lower. */
  function Behind(s: Sched, t: nat, p: Prio): seq<nat>
    requires s.cur in s.tcbs
  {
    if p == s.tcbs[s.cur].prio then s.queues[p] + [t] else [t] + s.queues[p]
  }

  /** A thread of the same or a lower priority that is woken does not disturb the current one. */
  lemma WokenWaits(s: Sched, t: nat)
    requires RunsAtTop(s) && t in s.tcbs && t != s.idle && !s.Runnable(t) && s.tcbs[t].prio <= s.tcbs[s.cur].prio
    ensures s.cur in s.tcbs && Inv(Wake(s, t)) && Closed(Wake(s, t))
    ensures Schedule(Wake(s, t)) == WithTcb(s, t, s.tcbs[t].(state := Running, queued := true), Behind(s, t, s.tcbs[t].prio))
  {
    Woken(s, t);
    var w := Wake(s, t);
    Parked(w, t);
    ScheduleIsSimple(w);
    hide Inv, Wake, Schedule, Closed, QueuesOk, CandidateFirst, ChooseThread;
    WaitsBehind(s, t, s.tcbs[t].(state := Running), w);
  }

  lemma WaitsBehind(s: Sched, t: nat, tcb: Tcb, w: Sched)
    requires s.cur in s.tcbs && t in s.tcbs && t != s.cur && !s.tcbs[s.cur].queued && !tcb.queued && s.Runnable(s.cur)
    requires w == s.(tcbs := s.tcbs[t := tcb], action := SwitchTo(t)) && s.action == ResumeCurrent
    requires Closed(w) && Closed(Append(Enqueue(w, s.cur), t)) && Closed(Enqueue(Enqueue(w, s.cur), t))
    requires s.cur !in s.queues[s.tcbs[s.cur].prio] && tcb.prio <= s.tcbs[s.cur].prio
    requires forall p: Prio :: s.queues[p] != [] ==> p <= s.tcbs[s.cur].prio
    ensures SimpleSchedule(w) == WithTcb(s, t, tcb.(queued := true), Behind(s, t, tcb.prio))
  {
    var c := s.cur;
    var s1 := Enqueue(w, c);
    var s2 := if tcb.prio == s.tcbs[c].prio then Append(s1, t) else Enqueue(s1, t);
    var rest := if tcb.prio == s.tcbs[c].prio then s.queues[s.tcbs[c].prio] + [t] else s.queues[s.tcbs[c].prio];
    assert s2.queues[s.tcbs[c].prio] == [c] + rest;
    hide Closed, ChooseThread;
    ChooseFirst(s2, c, rest);
    assert SimpleSchedule(w) == ChooseThread(s2).(action := ResumeCurrent);
    assert s2.tcbs[c := s2.tcbs[c].(queued := false)] == s.tcbs[t := tcb.(queued := true)];
  }

  /** A thread of a higher priority that is woken runs at once, and the current one waits first in
      its queue. */
  lemma WokenRuns(s: Sched, t: nat)
    requires RunsAtTop(s) && t in s.tcbs && t != s.idle && !s.Runnable(t) && s.tcbs[t].prio > s.tcbs[s.cur].prio
    ensures s.cur in s.tcbs && Inv(Wake(s, t)) && Closed(Wake(s, t))
    ensures Schedule(Wake(s, t)) == Preempted(s, t, s.tcbs[t].(state := Running))
  {
    Woken(s, t);
    var w := Wake(s, t);
    Parked(w, t);
    ScheduleIsSimple(w);
    hide Inv, Wake, Schedule, Closed, QueuesOk, CandidateFirst, ChooseThread;
    RunsAhead(s, t, s.tcbs[t].(state := Running), w);
  }

  /** `s` with thread `t`, now `tcb`, running instead. */
  function Preempted(s: Sched, t: nat, tcb: Tcb): Sched
    requires s.cur in s.tcbs
  {
    var c := s.cur;
    s.(tcbs := s.tcbs[c := s.tcbs[c].(queued := true)][t := tcb],
       queues := s.queues[s.tcbs[c].prio := [c] + s.queues[s.tcbs[c].prio]], cur := t)
  }

  lemma RunsAhead(s: Sched, t: nat, tcb: Tcb, w: Sched)
    requires s.cur in s.tcbs && t in s.tcbs && t != s.cur && !s.tcbs[s.cur].queued && !tcb.queued && s.Runnable(s.cur)
    requires w == s.(tcbs := s.tcbs[t := tcb], action := SwitchTo(t)) && s.action == ResumeCurrent
    requires Closed(w) && Closed(Enqueue(Enqueue(w, s.cur), t)) && tcb.prio > s.tcbs[s.cur].prio
    requires forall p: Prio :: s.queues[p] != [] ==> p <= s.tcbs[s.cur].prio
    ensures SimpleSchedule(w) == Preempted(s, t, tcb)
  {
    var c := s.cur;
    var s2 := Enqueue(Enqueue(w, c), t);
    assert s.queues[tcb.prio] == [];
    assert s2.queues[tcb.prio] == [t] + [];
    hide Closed, ChooseThread;
    ChooseFirst(s2, t, []);
    assert SimpleSchedule(w) == ChooseThread(s2).(action := ResumeCurrent);
    assert s2.tcbs[t := s2.tcbs[t].(queued := false)] == Preempted(s, t, tcb).tcbs;
    assert s2.queues[tcb.prio := []] == Preempted(s, t, tcb).queues;
  }

  /** When it blocks again, everything is as before: the thread that was preempted runs on, ahead of
      those that were waiting behind it. */
  lemma PreemptionRoundTrip(s: Sched, t: nat, ts: ThreadState)
    requires RunsAtTop(s) && t in s.tcbs && t != s.idle && !s.Runnable(t) && s.tcbs[t].prio > s.tcbs[s.cur].prio && !IsRunnable(ts)
    ensures Inv(Wake(s, t)) && Closed(Wake(s, t))
    ensures var high := Schedule(Wake(s, t));
      && high.cur == t && Inv(high) && Closed(high) && Closed(SetState(high, t, ts))
      && Schedule(SetState(high, t, ts)) == SetTcb(s, t, s.tcbs[t].(state := ts))
  {
    WokenRuns(s, t);
    Woken(s, t);
    ScheduleKeeps(Wake(s, t));
    var high := Schedule(Wake(s, t));
    InvClosed(high);
    BlockKeeps(high, ts);
    InvClosed(SetState(high, t, ts));
    hide Inv, Wake, Schedule, Closed, QueuesOk;
    BlocksAgain(s, t, ts);
  }

  lemma BlocksAgain(s: Sched, t: nat, ts: ThreadState)
    requires s.cur in s.tcbs && t in s.tcbs && t != s.cur && !s.tcbs[s.cur].queued && !s.tcbs[t].queued && s.Runnable(s.cur)
    requires s.action == ResumeCurrent && !IsRunnable(ts) && s.cur !in s.queues[s.tcbs[s.cur].prio]
    requires forall p: Prio :: s.queues[p] != [] ==> p <= s.tcbs[s.cur].prio
    requires Closed(SetState(Preempted(s, t, s.tcbs[t].(state := Running)), t, ts))
    ensures Schedule(SetState(Preempted(s, t, s.tcbs[t].(state := Running)), t, ts)) == SetTcb(s, t, s.tcbs[t].(state := ts))
  {
    var c, b := s.cur, SetState(Preempted(s, t, s.tcbs[t].(state := Running)), t, ts);
    hide Closed, ChooseThread;
    ChooseFirst(b, c, s.queues[s.tcbs[c].prio]);
    var e := ChooseThread(b);
    assert e.tcbs == s.tcbs[t := s.tcbs[t].(state := ts)];
    assert e.queues == s.queues;
  }

  /** A thread that is woken while another one waits to be switched to: both go to the front of their
      queues, the later one ahead, and a new choice is asked for. */
  lemma SecondWake(s: Sched, a: nat, b: nat)
    requires Known(s) && s.action == SwitchTo(a) && b in s.tcbs && a != b && !s.tcbs[a].queued && !s.tcbs[b].queued
    ensures var s1 := WithTcb(s, a, s.tcbs[a].(queued := true), [a] + s.queues[s.tcbs[a].prio]);
      Wake(s, b) == WithTcb(s1, b, s.tcbs[b].(state := Running, queued := true), [b] + s1.queues[s.tcbs[b].prio]).(action := ChooseNew)
  {
    var s1 := WithTcb(s, a, s.tcbs[a].(queued := true), [a] + s.queues[s.tcbs[a].prio]);
    var e := WithTcb(s1, b, s.tcbs[b].(state := Running, queued := true), [b] + s1.queues[s.tcbs[b].prio]);
    assert Wake(s, b).tcbs == e.tcbs;
  }

  /** A thread of the same or a lower priority that is restarted waits first in its queue. */
  lemma RestartedWaits(s: Sched, t: nat)
    requires RunsAtTop(s) && t in s.tcbs && t != s.idle && IsStopped(s.tcbs[t].state) && s.tcbs[t].prio <= s.tcbs[s.cur].prio
    ensures Inv(RestartThread(s, t)) && Closed(RestartThread(s, t))
    ensures Schedule(RestartThread(s, t)) == WithTcb(s, t, s.tcbs[t].(state := Restart, queued := true), [t] + s.queues[s.tcbs[t].prio])
  {
    Restarted(s, t);
    var w := RestartThread(s, t);
    hide Inv, QueuesOk, Schedule, Closed, ChooseThread, RestartThread, CandidateFirst;
    ScheduleIsSimple(w);
    RestartedParked(s, w);
    RestartedBehind(s, t, w);
  }

  lemma Restarted(s: Sched, t: nat)
    requires RunsAtTop(s) && t in s.tcbs && t != s.idle && IsStopped(s.tcbs[t].state)
    ensures var w, tcb := RestartThread(s, t), s.tcbs[t].(state := Restart, queued := true);
      && Inv(w) && Closed(w) && CandidateFirst(w) && t != s.cur && !s.tcbs[t].queued && s.cur in s.tcbs && w.cur == s.cur
      && w == WithTcb(s, t, tcb, [t] + s.queues[tcb.prio]).(action := SwitchTo(t))
      && s.cur !in s.queues[s.tcbs[s.cur].prio]
  {
    RestartKeeps(s, t);
    QueuedCanRun(s, t);
    InvKnown(s);
    InvClosed(RestartThread(s, t));
    RestartFirst(s, t);
  }

  lemma RestartedParked(s: Sched, w: Sched)
    requires Inv(w) && s.cur in w.tcbs
    ensures Closed(Enqueue(w, s.cur))
  {
    EnqueueKeeps(w, s.cur);
    InvClosed(Enqueue(w, s.cur));
  }

  lemma RestartedBehind(s: Sched, t: nat, w: Sched)
    requires s.cur in s.tcbs && t in s.tcbs && t != s.cur && !s.tcbs[s.cur].queued && !s.tcbs[t].queued && s.Runnable(s.cur)
    requires var tcb := s.tcbs[t].(state := Restart, queued := true);
      w == WithTcb(s, t, tcb, [t] + s.queues[tcb.prio]).(action := SwitchTo(t)) && s.action == ResumeCurrent
    requires Closed(w) && Closed(Enqueue(w, s.cur)) && s.cur !in s.queues[s.tcbs[s.cur].prio] && s.tcbs[t].prio <= s.tcbs[s.cur].prio
    requires forall p: Prio :: s.queues[p] != [] ==> p <= s.tcbs[s.cur].prio
    ensures SimpleSchedule(w) == w.(action := ResumeCurrent)
  {
    var c := s.cur;
    var s1 := Enqueue(w, c);
    var rest := w.queues[s.tcbs[c].prio];
    assert s1.queues[s.tcbs[c].prio] == [c] + rest && c !in rest;
    hide Closed, ChooseThread;
    ChooseFirst(s1, c, rest);
    assert SimpleSchedule(w) == ChooseThread(s1).(action := ResumeCurrent);
    assert s1.tcbs[c := s1.tcbs[c].(queued := false)] == w.tcbs;
  }

  /** A ready thread whose priority is changed leaves its queue and is treated like one that is woken
      with the new priority: it waits behind the current thread, or runs at once. */
  lemma PriorityMoves(s: Sched, t: nat, prio: Prio)
    requires RunsAtTop(s) && t in s.tcbs && t != s.cur && s.Runnable(t)
    ensures s.cur in s.tcbs && Inv(SetPriority(s, t, prio)) && Closed(SetPriority(s, t, prio))
    ensures var s1, tcb := Dequeue(s, t), s.tcbs[t].(prio := prio, queued := false);
      Schedule(SetPriority(s, t, prio)) ==
        if prio <= s.tcbs[s.cur].prio then WithTcb(s1, t, tcb.(queued := true), Behind(s1, t, prio)) else Preempted(s1, t, tcb)
  {
    Moved(s, t, prio);
    var w, s1, tcb := SetPriority(s, t, prio), Dequeue(s, t), s.tcbs[t].(prio := prio, queued := false);
    Parked(w, t);
    hide Inv, QueuesOk, Schedule, Closed, ChooseThread, SetPriority, CandidateFirst;
    ScheduleIsSimple(w);
    if prio <= s.tcbs[s.cur].prio { WaitsBehind(s1, t, tcb, w); } else { RunsAhead(s1, t, tcb, w); }
  }

  lemma Moved(s: Sched, t: nat, prio: Prio)
    requires RunsAtTop(s) && t in s.tcbs && t != s.cur && s.Runnable(t)
    ensures var w, s1, tcb := SetPriority(s, t, prio), Dequeue(s, t), s.tcbs[t].(prio := prio, queued := false);
      && Inv(w) && Closed(w) && CandidateFirst(w) && w.cur == s1.cur == s.cur && s.cur in s.tcbs && t in s1.tcbs && t != s.idle && w.cur in w.tcbs && t in w.tcbs
      && w == s1.(tcbs := s1.tcbs[t := tcb], action := SwitchTo(t)) && s1.action == ResumeCurrent
      && s1.cur in s1.tcbs && s1.tcbs[s1.cur] == s.tcbs[s.cur] && s1.cur !in s1.queues[s.tcbs[s.cur].prio]
      && (forall p: Prio :: s1.queues[p] != [] ==> p <= s.tcbs[s.cur].prio)
  {
    assert t != s.idle;
    SetPriorityKeeps(s, t, prio);
    InvKnown(s);
    InvClosed(SetPriority(s, t, prio));
    QueuedCanRun(s, t);
    SetPrioFirst(s, t, prio);
    DequeueShrinks(s, t);
  }

  lemma DequeueShrinks(s: Sched, t: nat)
    requires t in s.tcbs
    ensures forall p: Prio :: Dequeue(s, t).queues[p] != [] ==> s.queues[p] != []
    ensures forall p: Prio, u :: u in Dequeue(s, t).queues[p] ==> u in s.queues[p]
  {
  }

  // ----- restarting all waiters -----

  /** Those of `ts` with priority `p`, the last one first. */
  function LastFirst(m: Tcbs, ts: seq<nat>, p: Prio): seq<nat> {
    if ts == [] then [] else LastFirst(m, ts[1..], p) + (if ts[0] in m && m[ts[0]].prio == p then [ts[0]] else [])
  }

  lemma {:induction false} LastFirstSame(m: Tcbs, m': Tcbs, ts: seq<nat>, p: Prio)
    requires forall i :: 0 <= i < |ts| ==> ts[i] in m && ts[i] in m' && m[ts[i]].prio == m'[ts[i]].prio
    ensures LastFirst(m, ts, p) == LastFirst(m', ts, p)
  {
    if ts != [] { LastFirstSame(m, m', ts[1..], p); }
  }

  /** All go to the front of their queues, one after the other. */
  lemma {:induction false} WakeAllOrder(s: Sched, ts: seq<nat>, p: Prio)
    requires Known(s) && !s.action.SwitchTo? && Distinct(ts) && forall i :: 0 <= i < |ts| ==> ts[i] in s.tcbs && !s.tcbs[ts[i]].queued
    ensures WakeAll(s, ts).queues[p] == LastFirst(s.tcbs, ts, p) + s.queues[p]
    decreases |ts|
  {
    if ts == [] {
      assert LastFirst(s.tcbs, ts, p) + s.queues[p] == s.queues[p];
    } else {
      var s1 := Enqueue(SetState(s, ts[0], Restart), ts[0]);
      assert s1.queues[p] == (if s.tcbs[ts[0]].prio == p then [ts[0]] else []) + s.queues[p];
      forall i | 0 <= i < |ts[1..]| ensures ts[1..][i] != ts[0] { assert ts[1..][i] == ts[i + 1]; }
      WakeAllOrder(s1, ts[1..], p);
      LastFirstSame(s.tcbs, s1.tcbs, ts[1..], p);
    }
  }
}
