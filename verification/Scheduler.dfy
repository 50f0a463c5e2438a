/** The non-MCS scheduler of one core and one domain, on values: ready queues as
    sequences, the pending scheduler action, and every operation that moves a thread
    between them.  ReadyQueues.dfy stores the same state in linked lists and bitmaps. */
module Scheduler {
  import opened Sequences
  import opened ThreadStates

  const NUM_PRIORITIES: nat := 256
  const TIME_SLICE: nat := 5

  type Prio = p: nat | p < NUM_PRIORITIES

  datatype Tcb = Tcb(state: ThreadState, prio: Prio, timeSlice: nat, queued: bool)

  /** `ksSchedulerAction`. */
  datatype Action = ResumeCurrent | ChooseNew | SwitchTo(thread: nat)

  type Queues = qs: seq<seq<nat>> | |qs| == NUM_PRIORITIES witness seq(NUM_PRIORITIES, i => [])

  datatype Sched = Sched(tcbs: map<nat, Tcb>, queues: Queues, cur: nat, idle: nat, action: Action) {
    predicate Runnable(t: nat) { t in tcbs && IsRunnable(tcbs[t].state) }
  }

  // ----- operations -----

  function SetTcb(s: Sched, t: nat, tcb: Tcb): Sched { s.(tcbs := s.tcbs[t := tcb]) }

  function SetQueue(s: Sched, t: nat, p: Prio, q: seq<nat>, queued: bool): Sched
    requires t in s.tcbs
  {
    SetTcb(s, t, s.tcbs[t].(queued := queued)).(queues := s.queues[p := q])
  }

  /** `sched_enqueue`: at the front. */
  function Enqueue(s: Sched, t: nat): Sched
    requires t in s.tcbs
  {
    var p := s.tcbs[t].prio;
    if s.tcbs[t].queued then s else SetQueue(s, t, p, [t] + s.queues[p], true)
  }

  /** `sched_append`: at the back. */
  function Append(s: Sched, t: nat): Sched
    requires t in s.tcbs
  {
    var p := s.tcbs[t].prio;
    if s.tcbs[t].queued then s else SetQueue(s, t, p, s.queues[p] + [t], true)
  }

  /** `sched_dequeue`. */
  function Dequeue(s: Sched, t: nat): Sched
    requires t in s.tcbs
  {
    var p := s.tcbs[t].prio;
    if s.tcbs[t].queued then SetQueue(s, t, p, Without(s.queues[p], t), false) else s
  }

  function RescheduleRequired(s: Sched): Sched
    requires s.action.SwitchTo? ==> s.action.thread in s.tcbs
  {
    (if s.action.SwitchTo? then Enqueue(s, s.action.thread) else s).(action := ChooseNew)
  }

  function PossibleSwitchTo(s: Sched, t: nat): Sched
    requires t in s.tcbs && (s.action.SwitchTo? ==> s.action.thread in s.tcbs)
  {
    if s.action != ResumeCurrent then Enqueue(RescheduleRequired(s), t) else s.(action := SwitchTo(t))
  }

  /** `set_thread_state` with its `schedule_tcb`. */
  function SetState(s: Sched, t: nat, ts: ThreadState): Sched
    requires t in s.tcbs && (s.action.SwitchTo? ==> s.action.thread in s.tcbs)
  {
    var s1 := SetTcb(s, t, s.tcbs[t].(state := ts));
    if t == s.cur && s.action == ResumeCurrent && !IsRunnable(ts) then RescheduleRequired(s1) else s1
  }

  function SetPriority(s: Sched, t: nat, prio: Prio): Sched
    requires t in s.tcbs && (s.action.SwitchTo? ==> s.action.thread in s.tcbs)
  {
    var d := Dequeue(s, t);
    var s1 := SetTcb(d, t, d.tcbs[t].(prio := prio));
    if !s1.Runnable(t) then s1
    else if t == s.cur then RescheduleRequired(s1)
    else PossibleSwitchTo(s1, t)
  }

  /** `handle_yield`. */
  function Yield(s: Sched): Sched
    requires s.cur in s.tcbs && (s.action.SwitchTo? ==> s.action.thread in s.tcbs)
  {
    RescheduleRequired(Append(Dequeue(s, s.cur), s.cur))
  }

  function TimerTick(s: Sched): Sched
    requires s.cur in s.tcbs && (s.action.SwitchTo? ==> s.action.thread in s.tcbs)
  {
    var tcb := s.tcbs[s.cur];
    if tcb.state != Running then s
    else if tcb.timeSlice > 1 then SetTcb(s, s.cur, tcb.(timeSlice := tcb.timeSlice - 1))
    else RescheduleRequired(Append(SetTcb(s, s.cur, tcb.(timeSlice := TIME_SLICE)), s.cur))
  }

  /** A blocked thread is made runnable: the end of every IPC and signal path. */
  function Wake(s: Sched, t: nat): Sched
    requires t in s.tcbs && (s.action.SwitchTo? ==> s.action.thread in s.tcbs)
  {
    PossibleSwitchTo(SetState(s, t, Running), t)
  }

  /** `restart`. */
  function RestartThread(s: Sched, t: nat): Sched
    requires t in s.tcbs && (s.action.SwitchTo? ==> s.action.thread in s.tcbs)
  {
    if IsStopped(s.tcbs[t].state) then PossibleSwitchTo(Enqueue(SetState(s, t, Restart), t), t) else s
  }

  /** The loop of `cancel_all_ipc` and `cancel_all_signal` over the waiting threads. */
  function WakeAll(s: Sched, ts: seq<nat>): Sched
    requires (forall i :: 0 <= i < |ts| ==> ts[i] in s.tcbs) && (s.action.SwitchTo? ==> s.action.thread in s.tcbs)
    decreases |ts|
  {
    if ts == [] then RescheduleRequired(s) else WakeAll(Enqueue(SetState(s, ts[0], Restart), ts[0]), ts[1..])
  }

  /** `suspend`. */
  function Suspend(s: Sched, t: nat): Sched
    requires t in s.tcbs && (s.action.SwitchTo? ==> s.action.thread in s.tcbs)
  {
    Dequeue(SetState(s, t, Inactive), t)
  }

  /** The highest priority with a queued thread, below `bound`; 0 if there is none. */
  function HighestBelow(queues: Queues, bound: nat): (p: Prio)
    requires bound <= NUM_PRIORITIES
    ensures forall i :: p < i < bound ==> queues[i] == []
    ensures (exists i :: 0 <= i < bound && queues[i] != []) ==> p < bound && queues[p] != []
  {
    if bound == 0 then 0 else if queues[bound - 1] != [] then bound - 1 else HighestBelow(queues, bound - 1)
  }

  function GetHighestPrio(queues: Queues): Prio { HighestBelow(queues, NUM_PRIORITIES) }

  predicate AllEmpty(queues: Queues) { forall i :: 0 <= i < NUM_PRIORITIES ==> queues[i] == [] }

  predicate IsHighestPrio(queues: Queues, p: Prio) { AllEmpty(queues) || p >= GetHighestPrio(queues) }

  /** `switch_to_this`. */
  function SwitchToThread(s: Sched, t: nat): Sched
    requires t in s.tcbs
  {
    Dequeue(s, t).(cur := t)
  }

  /** The head of the highest non-empty queue, or the idle thread. */
  function ChooseThread(s: Sched): Sched
    requires s.idle in s.tcbs && forall p: Prio, i :: 0 <= i < |s.queues[p]| ==> s.queues[p][i] in s.tcbs
  {
    if AllEmpty(s.queues) then SwitchToThread(s, s.idle)
    else SwitchToThread(s, s.queues[GetHighestPrio(s.queues)][0])
  }

  ghost predicate Closed(s: Sched) {
    && s.cur in s.tcbs && s.idle in s.tcbs
    && (s.action.SwitchTo? ==> s.action.thread in s.tcbs)
    && forall p: Prio, i :: 0 <= i < |s.queues[p]| ==> s.queues[p][i] in s.tcbs
  }

  /** The part of `schedule` that deals with a pending candidate. */
  function TryCandidate(s: Sched, wasRunnable: bool, candidate: nat): Sched
    requires Closed(s) && candidate in s.tcbs
  {
    var prio, curPrio := s.tcbs[candidate].prio, s.tcbs[s.cur].prio;
    var fastfail := s.cur == s.idle || prio < curPrio;
    if fastfail && !IsHighestPrio(s.queues, prio) then ChooseThread(Enqueue(s, candidate))
    else if wasRunnable && prio == curPrio then ChooseThread(Append(s, candidate))
    else SwitchToThread(s, candidate)
  }

  function Schedule(s: Sched): Sched
    requires Closed(s)
  {
    if s.action == ResumeCurrent then s
    else
      var wasRunnable := s.Runnable(s.cur);
      var s1 := if wasRunnable then Enqueue(s, s.cur) else s;
      (if s.action == ChooseNew then ChooseThread(s1) else TryCandidate(s1, wasRunnable, s.action.thread))
      .(action := ResumeCurrent)
  }
}
