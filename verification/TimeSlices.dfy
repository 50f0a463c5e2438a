/** Preemption by the timer: a thread keeps the processor for exactly its time slice, and then the
    threads of its priority take turns. */
module TimeSlices {
  import opened Scheduler
  import opened SchedulerRuns
  import opened ThreadStates

  /** `k` timer ticks in a row. */
  ghost function TickTimes(s: Sched, k: nat): (r: Sched)
    requires Inv(s)
    ensures Inv(r)
  {
    if k == 0 then s else var t := TickTimes(s, k - 1); (TimerTickKeeps(t); TimerTick(t))
  }

  function WithSlice(s: Sched, slice: nat): Sched
    requires s.cur in s.tcbs
  {
    SetTcb(s, s.cur, s.tcbs[s.cur].(timeSlice := slice))
  }

  lemma OneTick(s: Sched)
    requires s.cur in s.tcbs && s.tcbs[s.cur].state == Running && s.action == ResumeCurrent
    ensures s.tcbs[s.cur].timeSlice > 1 ==> TimerTick(s) == WithSlice(s, s.tcbs[s.cur].timeSlice - 1)
    ensures s.tcbs[s.cur].timeSlice <= 1 && !s.tcbs[s.cur].queued ==>
      ToTheBack(s, TimerTick(s), s.tcbs[s.cur].(timeSlice := TIME_SLICE, queued := true))
  {
  }

  lemma SliceAgain(s: Sched, a: nat, b: nat)
    requires s.cur in s.tcbs
    ensures WithSlice(WithSlice(s, a), b) == WithSlice(s, b) && WithSlice(s, s.tcbs[s.cur].timeSlice) == s
  {
    assert s.tcbs[s.cur := s.tcbs[s.cur].(timeSlice := a)][s.cur := s.tcbs[s.cur].(timeSlice := b)] == s.tcbs[s.cur := s.tcbs[s.cur].(timeSlice := b)];
    assert s.tcbs[s.cur := s.tcbs[s.cur]] == s.tcbs;
  }

  /** A tick in a state that differs from `s` in the time slice only. */
  lemma TickAfter(s: Sched, slice: nat)
    requires s.cur in s.tcbs && s.tcbs[s.cur].state == Running && s.action == ResumeCurrent
    ensures var t := WithSlice(s, slice);
      && t.cur in t.tcbs && t.action == ResumeCurrent && t.queues == s.queues
      && (slice > 1 ==> TimerTick(t) == WithSlice(s, slice - 1))
      && (slice <= 1 && !s.tcbs[s.cur].queued ==> ToTheBack(s, TimerTick(t), s.tcbs[s.cur].(timeSlice := TIME_SLICE, queued := true)))
  {
    hide TimerTick;
    OneTick(WithSlice(s, slice));
    if slice > 1 { SliceAgain(s, slice, slice - 1); }
    if slice <= 1 && !s.tcbs[s.cur].queued { BackAgain(s, slice, TimerTick(WithSlice(s, slice))); }
  }

  lemma BackAgain(s: Sched, slice: nat, y: Sched)
    requires s.cur in s.tcbs
    requires ToTheBack(WithSlice(s, slice), y, s.tcbs[s.cur].(timeSlice := TIME_SLICE, queued := true))
    ensures ToTheBack(s, y, s.tcbs[s.cur].(timeSlice := TIME_SLICE, queued := true))
  {
    var tcb := s.tcbs[s.cur].(timeSlice := TIME_SLICE, queued := true);
    assert WithSlice(s, slice).tcbs[s.cur := tcb] == s.tcbs[s.cur := tcb];
  }

  lemma TickMore(s: Sched, k: nat)
    requires Inv(s)
    ensures TickTimes(s, 0) == s
    ensures var t := TickTimes(s, k); t.cur in t.tcbs && (t.action.SwitchTo? ==> t.action.thread in t.tcbs) && TickTimes(s, k + 1) == TimerTick(t)
  {
    hide TimerTick;
  }

  /** Fewer ticks than are left of the time slice only count it down. */
  lemma {:induction false} SliceCountsDown(s: Sched, k: nat)
    requires Inv(s) && s.action == ResumeCurrent && s.cur in s.tcbs && s.tcbs[s.cur].state == Running
    requires k == 0 || k < s.tcbs[s.cur].timeSlice
    ensures TickTimes(s, k) == WithSlice(s, s.tcbs[s.cur].timeSlice - k)
    decreases k
  {
    hide *;
    var slice := s.tcbs[s.cur].timeSlice;
    TickMore(s, 0);
    if k == 0 {
      SliceAgain(s, 0, 0);
    } else {
      SliceCountsDown(s, k - 1);
      TickMore(s, k - 1);
      TickAfter(s, slice - (k - 1));
    }
  }

  /** How many ticks the time slice lasts. */
  function SliceLeft(s: Sched): nat
    requires s.cur in s.tcbs
  {
    if s.tcbs[s.cur].timeSlice == 0 then 1 else s.tcbs[s.cur].timeSlice
  }

  /** The last tick of the time slice puts the thread, with a full slice, at the end of its queue and
      asks for a new choice; no tick before it does. */
  lemma {:induction false} SliceEnds(s: Sched)
    requires Inv(s) && s.action == ResumeCurrent && s.cur in s.tcbs && s.tcbs[s.cur].state == Running && !s.tcbs[s.cur].queued
    ensures forall k: nat {:trigger TickTimes(s, k)} :: k < SliceLeft(s) ==> TickTimes(s, k).action == ResumeCurrent && TickTimes(s, k).queues == s.queues
    ensures ToTheBack(s, TickTimes(s, SliceLeft(s)), s.tcbs[s.cur].(timeSlice := TIME_SLICE, queued := true))
  {
    hide Inv, Order, QueuesOk, TimerTick, ToTheBack, TickTimes, WithSlice;
    forall k: nat | k < SliceLeft(s) ensures TickTimes(s, k).action == ResumeCurrent && TickTimes(s, k).queues == s.queues {
      SliceGoesOn(s, k);
    }
    SliceGoesOn(s, SliceLeft(s) - 1);
  }

  lemma {:induction false} SliceGoesOn(s: Sched, k: nat)
    requires Inv(s) && s.action == ResumeCurrent && s.cur in s.tcbs && s.tcbs[s.cur].state == Running && !s.tcbs[s.cur].queued && k < SliceLeft(s)
    ensures TickTimes(s, k).action == ResumeCurrent && TickTimes(s, k).queues == s.queues
    ensures k + 1 == SliceLeft(s) ==> ToTheBack(s, TickTimes(s, k + 1), s.tcbs[s.cur].(timeSlice := TIME_SLICE, queued := true))
  {
    hide Inv, Order, QueuesOk, TimerTick, ToTheBack, TickTimes, WithSlice;
    SliceCountsDown(s, k);
    TickMore(s, k);
    TickAfter(s, s.tcbs[s.cur].timeSlice - k);
  }

  /** The current thread runs to the end of its time slice, and `schedule` follows. */
  ghost function SliceOnce(s: Sched): Sched
    requires RunsAtTop(s)
  {
    var y := TickTimes(s, SliceLeft(s));
    ScheduleKeeps(y);
    Schedule(y)
  }

  /** Then it goes to the end of the line with a full time slice, and whoever has waited longest
      runs: preemption is round robin. */
  lemma {:induction false} SliceRotates(s: Sched)
    requires RunsAtTop(s) && s.tcbs[s.cur].state == Running
    ensures var e := SliceOnce(s);
      && RunsAtTop(e) && Line(e) == Line(s)[1..] + [s.cur] && e.tcbs.Keys == s.tcbs.Keys
      && (forall t :: t in s.tcbs ==> e.tcbs[t].state == s.tcbs[t].state)
      && e.tcbs[s.cur].timeSlice == TIME_SLICE && forall t :: t in s.tcbs && t != s.cur ==> e.tcbs[t].timeSlice == s.tcbs[t].timeSlice
  {
    SliceEnds(s);
    hide ToTheBack, Schedule, QueuesOk, TickTimes;
    BackRotates(s, TickTimes(s, SliceLeft(s)), s.tcbs[s.cur].(timeSlice := TIME_SLICE, queued := true));
  }

  ghost predicate AllRunning(s: Sched)
    requires RunsAtTop(s)
  {
    forall i :: 0 <= i < |Line(s)| ==> Line(s)[i] in s.tcbs && s.tcbs[Line(s)[i]].state == Running
  }

  ghost function SliceTimes(s: Sched, k: nat): Sched
    requires RunsAtTop(s) && AllRunning(s)
    decreases k
  {
    if k == 0 then s else (StillRunning(s); SliceTimes(SliceOnce(s), k - 1))
  }

  lemma {:induction false} StillRunning(s: Sched)
    requires RunsAtTop(s) && AllRunning(s)
    ensures s.tcbs[s.cur].state == Running && RunsAtTop(SliceOnce(s)) && AllRunning(SliceOnce(s))
    ensures Line(SliceOnce(s)) == Line(s)[1..] + [Line(s)[0]] && Line(s) != []
  {
    assert Line(s)[0] == s.cur;
    SliceRotates(s);
    var e := SliceOnce(s);
    hide RunsAtTop, SliceOnce, Line;
    forall i | 0 <= i < |Line(e)| ensures Line(e)[i] in e.tcbs && e.tcbs[Line(e)[i]].state == Running {
      assert Line(e)[i] == if i < |Line(s)| - 1 then Line(s)[i + 1] else Line(s)[0];
    }
  }

  /** After `k` time slices the line has moved up by `k`. */
  lemma {:induction false} TimerRoundRobin(s: Sched, k: nat)
    requires RunsAtTop(s) && AllRunning(s) && k <= |Line(s)|
    ensures RunsAtTop(SliceTimes(s, k)) && Line(SliceTimes(s, k)) == Line(s)[k..] + Line(s)[..k]
    decreases k
  {
    if k > 0 {
      StillRunning(s);
      hide RunsAtTop, SliceOnce, Line, AllRunning;
      TimerRoundRobin(SliceOnce(s), k - 1);
      Rotated(Line(s), k);
    }
  }
}
