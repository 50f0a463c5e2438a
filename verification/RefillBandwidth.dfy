/** Whole runs of a context that is not round robin: however it is charged, preempted, woken
    and dispatched, it gets no more than its budget per period. */
module RefillBandwidth {
  import opened RefillExact
  import opened RefillList
  import opened RefillRuns
  import opened RefillSupply
  import opened Powers

  /** `after` supplies its ticks at most `early` before `before` does once its first `usage` ticks
      have been used. */
  ghost predicate Trails(before: seq<int>, after: seq<int>, usage: nat, period: nat, early: nat) {
    && 0 < |before| == |after|
    && forall i :: 0 <= i < |after| ==> after[i] >= Stream(before, period, usage + i) - early
  }

  lemma {:induction false} StreamTrails(before: seq<int>, after: seq<int>, usage: nat, period: nat, early: nat, k: nat)
    requires Trails(before, after, usage, period, early)
    ensures Stream(after, period, k) >= Stream(before, period, usage + k) - early
    decreases k
  {
    if k >= |after| { StreamTrails(before, after, usage, period, early, k - |after|); }
  }

  lemma TrailsCompose(a: seq<int>, b: seq<int>, c: seq<int>, first: nat, second: nat, period: nat, early: nat, earlier: nat)
    requires Trails(a, b, first, period, early) && Trails(b, c, second, period, earlier)
    ensures Trails(a, c, first + second, period, early + earlier)
  {
    forall i | 0 <= i < |c| ensures c[i] >= Stream(a, period, first + second + i) - (early + earlier) {
      StreamTrails(a, b, first, period, early, second + i);
    }
  }

  /** The ticks charged in a step. */
  ghost function ChargedIn(cfg: Timing, s: Cpu, step: Step): nat
    decreases if step.Configure? then 1 else 0
  {
    var c := s.context;
    match step
    case Entry(elapsed) =>
      if s.running && !Sufficient(cfg, c.refills, s.consumed + elapsed) then Charged(cfg, c.refills, c.max, c.period, s.consumed + elapsed) else 0
    case Yield => Charged(cfg, c.refills, c.max, c.period, c.refills[0].amount)
    case Preempt => if s.running && 0 < s.consumed then Charged(cfg, c.refills, c.max, c.period, s.consumed) else 0
    case Overrun(elapsed) => Charged(cfg, c.refills, c.max, c.period, s.Since() + elapsed)
    case Configure(_, _, _, _) => ChargedIn(cfg, s, Preempt)
    case _ => 0
  }

  /** How much earlier the step may make ticks: unblocking, and reconfiguring, pull a head that is
      almost ready forward by up to `wcet` ticks. */
  function EarlyIn(cfg: Timing, s: Cpu, step: Step): nat {
    if step.Configure? then cfg.wcet
    else if ((step.Dispatch? && step.constantBandwidth) || step.Wake?) && s.now < s.context.refills[0].time <= s.now + cfg.wcet
    then cfg.wcet else 0
  }

  lemma ChargeTrails(cfg: Timing, s: Cpu, usage: nat)
    requires Invariant(cfg, s) && s.context.period != 0
    ensures var c := s.context;
      Trails(Ticks(c.refills), Ticks(BudgetCheck(cfg, c.refills, c.max, c.period, usage)), Charged(cfg, c.refills, c.max, c.period, usage), c.period, 0)
  {
    var c := s.context;
    BudgetCheckLags(cfg, c.refills, c.max, c.period, usage, s.budget, Later(c.refills[0].time, cfg.maxRelease + cfg.wcet) + cfg.maxPeriod);
  }

  lemma UnblockTrails(cfg: Timing, s: Cpu)
    requires Invariant(cfg, s) && s.context.period != 0
    ensures var c := s.context;
      Trails(Ticks(c.refills), Ticks(Unblock(cfg, c.refills, s.now)), 0, c.period, EarlyIn(cfg, s, Wake))
  {
    UnblockDefers(cfg, s.context.refills, s.now);
    TicksCount(s.context.refills);
  }

  lemma NothingTrails(t: seq<int>, period: nat)
    requires 0 < |t|
    ensures Trails(t, t, 0, period, 0)
  {
  }

  ghost predicate StepOk(cfg: Timing, s: Cpu, step: Step)
    requires Invariant(cfg, s)
  {
    var s' := Next(cfg, s, step);
    && s'.context.period == s.context.period
    && Trails(Ticks(s.context.refills), Ticks(s'.context.refills), ChargedIn(cfg, s, step), s.context.period, EarlyIn(cfg, s, step))
  }

  lemma EntryTrails(cfg: Timing, s: Cpu, step: Step)
    requires Invariant(cfg, s) && s.context.period != 0 && step.Entry?
    ensures StepOk(cfg, s, step)
  {
    hide Trails, BudgetCheck, Charged, Ticks, Invariant, Sufficient;
    HasTicks(cfg, s);
    NothingTrails(Ticks(s.context.refills), s.context.period);
    ChargeTrails(cfg, s, s.consumed + step.elapsed);
  }

  lemma PreemptTrails(cfg: Timing, s: Cpu, step: Step)
    requires Invariant(cfg, s) && s.context.period != 0 && step.Preempt?
    ensures StepOk(cfg, s, step)
  {
    hide Trails, BudgetCheck, Charged, Ticks, Invariant, Sufficient;
    HasTicks(cfg, s);
    NothingTrails(Ticks(s.context.refills), s.context.period);
    ChargeTrails(cfg, s, s.consumed);
  }

  lemma SpentTrails(cfg: Timing, s: Cpu, step: Step)
    requires Invariant(cfg, s) && s.context.period != 0 && (step.Yield? || step.Overrun?)
    ensures StepOk(cfg, s, step)
  {
    hide Trails, BudgetCheck, Charged, Ticks, Invariant, Sufficient;
    ChargeTrails(cfg, s, if step.Yield? then s.context.refills[0].amount else s.Since() + step.elapsed);
  }

  lemma UnblockStepTrails(cfg: Timing, s: Cpu, step: Step)
    requires Invariant(cfg, s) && s.context.period != 0 && (step.Dispatch? || step.Wake?)
    ensures StepOk(cfg, s, step)
  {
    hide Trails, Unblock, Ticks, Invariant, Sufficient;
    HasTicks(cfg, s);
    NothingTrails(Ticks(s.context.refills), s.context.period);
    UnblockTrails(cfg, s);
  }

  lemma StepTrails(cfg: Timing, s: Cpu, step: Step)
    requires Invariant(cfg, s) && s.context.period != 0 && !step.Configure?
    ensures StepOk(cfg, s, step)
  {
    hide Invariant, StepOk;
    match step
    case Entry(_) => EntryTrails(cfg, s, step);
    case Yield => SpentTrails(cfg, s, step);
    case Preempt => PreemptTrails(cfg, s, step);
    case Overrun(_) => SpentTrails(cfg, s, step);
    case Dispatch(_) => UnblockStepTrails(cfg, s, step);
    case Wake => UnblockStepTrails(cfg, s, step);
  }

  // ----- runs -----

  ghost predicate NeverConfigured(steps: seq<Step>) { forall i :: 0 <= i < |steps| ==> !steps[i].Configure? }

  /** The ticks charged in a run, and how much earlier it may have made ticks. */
  ghost function ChargedAll(cfg: Timing, s: Cpu, steps: seq<Step>): nat
    requires Invariant(cfg, s) && Legal(cfg, s, steps)
    decreases |steps|
  {
    if steps == [] then 0
    else (StepSafe(cfg, s, steps[0]); ChargedIn(cfg, s, steps[0]) + ChargedAll(cfg, Next(cfg, s, steps[0]), steps[1..]))
  }

  ghost function EarlyAll(cfg: Timing, s: Cpu, steps: seq<Step>): nat
    requires Invariant(cfg, s) && Legal(cfg, s, steps)
    decreases |steps|
  {
    if steps == [] then 0
    else (StepSafe(cfg, s, steps[0]); EarlyIn(cfg, s, steps[0]) + EarlyAll(cfg, Next(cfg, s, steps[0]), steps[1..]))
  }

  /** After any run the ticks trail those at its start, used up to everything that was charged. */
  lemma {:induction false} RunTrails(cfg: Timing, s: Cpu, steps: seq<Step>)
    requires Invariant(cfg, s) && Legal(cfg, s, steps) && s.context.period != 0 && NeverConfigured(steps)
    ensures Trails(Ticks(s.context.refills), Ticks(Run(cfg, s, steps).context.refills), ChargedAll(cfg, s, steps), s.context.period, EarlyAll(cfg, s, steps))
    decreases |steps|
  {
    hide Next, Enabled, Trails, Ticks, ChargedIn, EarlyIn;
    if steps == [] {
      HasTicks(cfg, s);
      NothingTrails(Ticks(s.context.refills), s.context.period);
    } else {
      var step, s' := steps[0], Next(cfg, s, steps[0]);
      StepSafe(cfg, s, step);
      StepTrails(cfg, s, step);
      RunTrails(cfg, s', steps[1..]);
      TrailsCompose(Ticks(s.context.refills), Ticks(s'.context.refills), Ticks(Run(cfg, s', steps[1..]).context.refills),
                    ChargedIn(cfg, s, step), ChargedAll(cfg, s', steps[1..]), s.context.period,
                    EarlyIn(cfg, s, step), EarlyAll(cfg, s', steps[1..]));
    }
  }

  lemma HasTicks(cfg: Timing, s: Cpu)
    requires Invariant(cfg, s)
    ensures |Ticks(s.context.refills)| == s.budget > 0
  {
    TicksCount(s.context.refills);
  }

  /** After `m` laps the stream is at least `m` periods on. */
  lemma {:induction false} StreamLaps(t: seq<int>, period: nat, m: nat, k: nat, low: int)
    requires 0 < |t| && forall i :: 0 <= i < |t| ==> t[i] >= low
    ensures Stream(t, period, m * |t| + k) >= low + m * period
    decreases m, k
  {
    var n := |t|;
    if m > 0 {
      assert m * n + k - n == (m - 1) * n + k;
      StreamLaps(t, period, m - 1, k, low);
    } else if k >= n {
      StreamLaps(t, period, m, k - n, low);
    }
  }

  lemma {:induction false} OrderedFrom(rs: seq<Refill>, i: nat)
    requires Ordered(rs) && i < |rs|
    ensures rs[0].time <= rs[i].time
    decreases i
  {
    if i > 0 { OrderedFrom(rs, i - 1); }
  }

  lemma {:induction false} TicksFrom(rs: seq<Refill>, low: int)
    requires forall i :: 0 <= i < |rs| ==> low <= rs[i].time
    ensures forall k :: 0 <= k < |Ticks(rs)| ==> low <= Ticks(rs)[k]
  {
    if rs != [] { TicksFrom(rs[1..], low); }
  }

  lemma {:induction false} HeadTick(rs: Refills)
    requires 0 < rs[0].amount && Ordered(rs)
    ensures 0 < |Ticks(rs)| && Ticks(rs)[0] == rs[0].time
    ensures forall k :: 0 <= k < |Ticks(rs)| ==> rs[0].time <= Ticks(rs)[k]
  {
    assert Ticks(rs) == TicksOf(rs[0]) + Ticks(rs[1..]);
    forall i | 0 <= i < |rs| ensures rs[0].time <= rs[i].time { OrderedFrom(rs, i); }
    TicksFrom(rs, rs[0].time);
  }

  /** The bandwidth of a context: in every run, whenever the context is ready to run again after
      `m` whole budgets have been charged, `m` periods have passed since its first head, up to
      `wcet` and what unblocking pulled forward. */
  lemma {:induction false} BudgetPerPeriod(cfg: Timing, s: Cpu, steps: seq<Step>, m: nat)
    requires Invariant(cfg, s) && s.context.period != 0 && NeverConfigured(steps) && Legal(cfg, s, steps)
    ensures var e := Run(cfg, s, steps);
      m * s.budget <= ChargedAll(cfg, s, steps) && Ready(cfg, e.context.refills, e.now) ==>
        s.context.refills[0].time + m * s.context.period <= e.now + cfg.wcet + EarlyAll(cfg, s, steps)
  {
    var e, used := Run(cfg, s, steps), ChargedAll(cfg, s, steps);
    RunTrails(cfg, s, steps);
    RunsAreSafe(cfg, s, steps);
    SamePeriod(cfg, s, steps);
    HeadTick(s.context.refills);
    HeadTick(e.context.refills);
    HasTicks(cfg, s);
    if m * s.budget <= used {
      StreamLaps(Ticks(s.context.refills), s.context.period, m, used - m * s.budget, s.context.refills[0].time);
    }
  }

  lemma {:induction false} SamePeriod(cfg: Timing, s: Cpu, steps: seq<Step>)
    requires Invariant(cfg, s) && s.context.period != 0 && NeverConfigured(steps) && Legal(cfg, s, steps)
    ensures Run(cfg, s, steps).context.period == s.context.period
    decreases |steps|
  {
    hide Invariant, Enabled, Trails, Ticks;
    if steps != [] {
      StepSafe(cfg, s, steps[0]);
      StepTrails(cfg, s, steps[0]);
      SamePeriod(cfg, Next(cfg, s, steps[0]), steps[1..]);
    }
  }

  ghost predicate Parameters(cfg: Timing, budget: nat, period: nat, max: nat, start: nat) {
    && cfg.Valid() && start < cfg.maxRelease && MIN_REFILLS <= max
    && cfg.minBudget <= budget <= period <= cfg.maxPeriod
  }

  /** A context that has just been configured. */
  ghost function Start(cfg: Timing, budget: nat, period: nat, max: nat, start: nat): (s: Cpu)
    requires Parameters(cfg, budget, period, max, start)
    ensures Invariant(cfg, s)
  {
    FreshIsInvariant(cfg, budget, period, max, start);
    Cpu(Fresh(budget, period, max, start), budget, start, 0, false)
  }

  /** So a context configured at `start` is ready with `m` whole budgets used up at `m` periods
      after that at the earliest. */
  lemma {:induction false} NoMoreThanBudget(cfg: Timing, budget: nat, period: nat, max: nat, start: nat, steps: seq<Step>, m: nat)
    requires Parameters(cfg, budget, period, max, start) && NeverConfigured(steps)
    requires Legal(cfg, Start(cfg, budget, period, max, start), steps)
    ensures var s := Start(cfg, budget, period, max, start); var e := Run(cfg, s, steps);
      m * budget <= ChargedAll(cfg, s, steps) && Ready(cfg, e.context.refills, e.now) ==>
        start + m * period <= e.now + cfg.wcet + EarlyAll(cfg, s, steps)
  {
    BudgetPerPeriod(cfg, Start(cfg, budget, period, max, start), steps, m);
  }

  // ----- the refills stay within one period -----

  lemma {:induction false} ChargeCompact(cfg: Timing, s: Cpu, usage: nat)
    requires Invariant(cfg, s) && s.context.period != 0 && Compact(s.context.refills, s.context.period)
    ensures var c := s.context; Compact(BudgetCheck(cfg, c.refills, c.max, c.period, usage), c.period)
  {
    var c := s.context;
    BudgetCheckCompact(cfg, c.refills, c.max, c.period, usage, s.budget, Later(c.refills[0].time, cfg.maxRelease + cfg.wcet) + cfg.maxPeriod);
  }

  lemma {:induction false} UnblockedCompact(cfg: Timing, s: Cpu)
    requires Invariant(cfg, s) && s.context.period != 0 && Compact(s.context.refills, s.context.period) && EarlyIn(cfg, s, Wake) == 0
    ensures Compact(Unblock(cfg, s.context.refills, s.now), s.context.period)
  {
    UnblockCompact(cfg, s.context.refills, s.now, s.context.period);
  }

  lemma {:induction false} StepCompact(cfg: Timing, s: Cpu, step: Step)
    requires Invariant(cfg, s) && s.context.period != 0 && !step.Configure? && EarlyIn(cfg, s, step) == 0
    requires Compact(s.context.refills, s.context.period)
    ensures Compact(Next(cfg, s, step).context.refills, s.context.period)
  {
    hide Compact, BudgetCheck, Unblock, Invariant, Sufficient, Ready;
    match step
    case Entry(elapsed) => ChargeCompact(cfg, s, s.consumed + elapsed);
    case Yield => ChargeCompact(cfg, s, s.context.refills[0].amount);
    case Preempt => ChargeCompact(cfg, s, s.consumed);
    case Overrun(elapsed) => ChargeCompact(cfg, s, s.Since() + elapsed);
    case Dispatch(constantBandwidth) => if constantBandwidth { UnblockedCompact(cfg, s); }
    case Wake => UnblockedCompact(cfg, s);
  }

  /** In every run in which no head is pulled forward, the refills stay within one period of the head,
      so that charging gives every tick back exactly one period later. */
  lemma {:induction false} RunCompact(cfg: Timing, s: Cpu, steps: seq<Step>)
    requires Invariant(cfg, s) && Legal(cfg, s, steps) && s.context.period != 0 && NeverConfigured(steps)
    requires EarlyAll(cfg, s, steps) == 0 && Compact(s.context.refills, s.context.period)
    ensures Compact(Run(cfg, s, steps).context.refills, s.context.period)
    decreases |steps|
  {
    hide Next, Enabled, Invariant, Compact, EarlyIn, Trails, Ticks;
    if steps != [] {
      StepSafe(cfg, s, steps[0]);
      StepTrails(cfg, s, steps[0]);
      StepCompact(cfg, s, steps[0]);
      RunCompact(cfg, Next(cfg, s, steps[0]), steps[1..]);
    }
  }

  lemma StartCompact(cfg: Timing, budget: nat, period: nat, max: nat, start: nat)
    requires Parameters(cfg, budget, period, max, start)
    ensures Compact(Start(cfg, budget, period, max, start).context.refills, period)
  {
  }

  /** So they do in every such run from the moment the context was configured. */
  lemma {:induction false} CompactSinceStart(cfg: Timing, budget: nat, period: nat, max: nat, start: nat, steps: seq<Step>)
    requires Parameters(cfg, budget, period, max, start) && NeverConfigured(steps) && 0 < period
    requires Legal(cfg, Start(cfg, budget, period, max, start), steps) && EarlyAll(cfg, Start(cfg, budget, period, max, start), steps) == 0
    ensures Compact(Run(cfg, Start(cfg, budget, period, max, start), steps).context.refills, period)
  {
    hide Legal, EarlyAll;
    StartCompact(cfg, budget, period, max, start);
    RunCompact(cfg, Start(cfg, budget, period, max, start), steps);
  }

  // ----- runs in which the context is reconfigured -----

  /** Every reconfiguration updates the refills, and leaves the context one that is not round robin. */
  ghost predicate OnlyUpdates(steps: seq<Step>) {
    forall i :: 0 <= i < |steps| && steps[i].Configure? ==> steps[i].update && steps[i].budget < steps[i].period
  }

  /** The time that charging `used` ticks has to take: a period for every whole budget. */
  ghost function Due(cfg: Timing, s: Cpu, used: nat): nat
    requires Invariant(cfg, s)
  {
    Quot(used, s.budget) * s.context.period
  }

  /** The same for a run, with budget and period as they are from one reconfiguration to the next;
      `used` ticks have been charged before it. */
  ghost function DueAll(cfg: Timing, s: Cpu, steps: seq<Step>, used: nat): nat
    requires Invariant(cfg, s) && Legal(cfg, s, steps)
    decreases |steps|
  {
    if steps == [] then Due(cfg, s, used)
    else
      StepSafe(cfg, s, steps[0]);
      var s', more := Next(cfg, s, steps[0]), used + ChargedIn(cfg, s, steps[0]);
      if steps[0].Configure? then Due(cfg, s, more) + DueAll(cfg, s', steps[1..], 0) else DueAll(cfg, s', steps[1..], more)
  }

  /** The ticks of `s` trail those of a list that started at `low` and had `used` ticks charged. */
  ghost predicate Behind(cfg: Timing, s: Cpu, t: seq<int>, low: int, used: nat, early: nat) {
    && |t| == s.budget && (forall k :: 0 <= k < |t| ==> low <= t[k])
    && Trails(t, Ticks(s.context.refills), used, s.context.period, early)
  }

  lemma {:induction false} DueByHead(cfg: Timing, s: Cpu, t: seq<int>, low: int, used: nat, early: nat)
    requires Invariant(cfg, s) && s.context.period != 0 && Behind(cfg, s, t, low, used, early)
    ensures low + Due(cfg, s, used) <= s.context.refills[0].time + early
  {
    HeadTick(s.context.refills);
    DivMod(used, s.budget);
    var m := Quot(used, s.budget);
    StreamLaps(t, s.context.period, m, used - m * s.budget, low);
  }

  lemma {:induction false} BehindStep(cfg: Timing, s: Cpu, step: Step, t: seq<int>, low: int, used: nat, early: nat)
    requires Invariant(cfg, s) && s.context.period != 0 && !step.Configure? && Behind(cfg, s, t, low, used, early)
    ensures var s' := Next(cfg, s, step);
      s'.context.period != 0 && Behind(cfg, s', t, low, used + ChargedIn(cfg, s, step), early + EarlyIn(cfg, s, step))
  {
    hide Trails, Ticks, ChargedIn, EarlyIn, Invariant;
    StepTrails(cfg, s, step);
    TrailsCompose(t, Ticks(s.context.refills), Ticks(Next(cfg, s, step).context.refills), used, ChargedIn(cfg, s, step), s.context.period, early, EarlyIn(cfg, s, step));
  }

  lemma {:induction false} Committing(cfg: Timing, s: Cpu)
    requires Invariant(cfg, s) && s.running
    ensures Next(cfg, s, Preempt) == Commit(cfg, s).(running := false)
    ensures Invariant(cfg, Next(cfg, s, Preempt)) && Next(cfg, s, Preempt).context == Commit(cfg, s).context
  {
    StepSafe(cfg, s, Preempt);
  }

  /** A reconfiguration starts a new list, at most `wcet` before the head of the old one. */
  lemma {:induction false} BehindConfigure(cfg: Timing, s: Cpu, step: Step, t: seq<int>, low: int, used: nat, early: nat)
    requires Invariant(cfg, s) && Enabled(cfg, s, step) && s.context.period != 0 && Behind(cfg, s, t, low, used, early)
    requires step.Configure? && step.update && step.budget < step.period
    ensures var s' := Next(cfg, s, step);
      && Invariant(cfg, s') && s'.context.period != 0
      && low + Due(cfg, s, used + ChargedIn(cfg, s, step)) <= s'.context.refills[0].time + cfg.wcet + early
      && Behind(cfg, s', Ticks(s'.context.refills), s'.context.refills[0].time, 0, 0)
  {
    hide Invariant, Behind, Due, ChargedIn, Commit, Next, Ticks;
    StepSafe(cfg, s, step);
    ConfigureHead(cfg, s, step);
    Restarts(cfg, Next(cfg, s, step));
    DueAtConfigure(cfg, s, step, t, low, used, early);
  }

  lemma {:induction false} ConfigureHead(cfg: Timing, s: Cpu, step: Step)
    requires Invariant(cfg, s) && step.Configure? && step.update && step.budget < step.period && s.context.period != 0
    ensures var s' := Next(cfg, s, step);
      s'.context.period == step.period && Commit(cfg, s).context.refills[0].time <= s'.context.refills[0].time + cfg.wcet
  {
    hide Committed;
  }

  lemma {:induction false} DueAtConfigure(cfg: Timing, s: Cpu, step: Step, t: seq<int>, low: int, used: nat, early: nat)
    requires Invariant(cfg, s) && s.context.period != 0 && Behind(cfg, s, t, low, used, early) && step.Configure?
    ensures low + Due(cfg, s, used + ChargedIn(cfg, s, step)) <= Commit(cfg, s).context.refills[0].time + early
  {
    if s.running {
      Committing(cfg, s);
      BehindStep(cfg, s, Preempt, t, low, used, early);
      hide Behind, Invariant, Next;
      DueByHead(cfg, Next(cfg, s, Preempt), t, low, used + ChargedIn(cfg, s, Preempt), early);
    } else {
      DueByHead(cfg, s, t, low, used, early);
    }
  }

  lemma {:induction false} Restarts(cfg: Timing, s: Cpu)
    requires Invariant(cfg, s) && s.context.period != 0
    ensures Behind(cfg, s, Ticks(s.context.refills), s.context.refills[0].time, 0, 0)
  {
    HeadTick(s.context.refills);
    HasTicks(cfg, s);
    NothingTrails(Ticks(s.context.refills), s.context.period);
  }

  lemma {:induction false} DueInTime(cfg: Timing, s: Cpu, steps: seq<Step>, t: seq<int>, low: int, used: nat, early: nat)
    requires Invariant(cfg, s) && Legal(cfg, s, steps) && s.context.period != 0 && OnlyUpdates(steps) && Behind(cfg, s, t, low, used, early)
    ensures low + DueAll(cfg, s, steps, used) <= Run(cfg, s, steps).context.refills[0].time + early + EarlyAll(cfg, s, steps)
    decreases |steps|
  {
    hide Next, Enabled, Invariant, Behind, ChargedIn, Due;
    if steps == [] {
      DueByHead(cfg, s, t, low, used, early);
    } else {
      var step, s' := steps[0], Next(cfg, s, steps[0]);
      StepSafe(cfg, s, step);
      if step.Configure? {
        BehindConfigure(cfg, s, step, t, low, used, early);
        DueInTime(cfg, s', steps[1..], Ticks(s'.context.refills), s'.context.refills[0].time, 0, 0);
      } else {
        BehindStep(cfg, s, step, t, low, used, early);
        DueInTime(cfg, s', steps[1..], t, low, used + ChargedIn(cfg, s, step), early + EarlyIn(cfg, s, step));
      }
    }
  }

  /** The bandwidth of a context that is reconfigured any number of times while it runs: every whole
      budget charged takes its period, each with the parameters of its time, up to `wcet` and what
      unblocking and reconfiguring pulled forward. */
  lemma {:induction false} BudgetPerPeriodReconfigured(cfg: Timing, s: Cpu, steps: seq<Step>)
    requires Invariant(cfg, s) && Legal(cfg, s, steps) && s.context.period != 0 && OnlyUpdates(steps)
    ensures var e := Run(cfg, s, steps); Ready(cfg, e.context.refills, e.now) ==>
      s.context.refills[0].time + DueAll(cfg, s, steps, 0) <= e.now + cfg.wcet + EarlyAll(cfg, s, steps)
  {
    Restarts(cfg, s);
    DueInTime(cfg, s, steps, Ticks(s.context.refills), s.context.refills[0].time, 0, 0);
  }
}
