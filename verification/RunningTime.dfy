/** The time a context really runs, against its budget: no time on the processor goes
    unaccounted. */
module RunningTime {
  import opened RefillList
  import opened RefillSupply
  import opened RefillRuns
  import opened RefillBandwidth

  /** Everything is charged, unless a head at the release limit stops the charge. */
  lemma ChargedFully(cfg: Timing, rs: Refills, max: nat, period: nat, usage: nat)
    requires Charge(cfg, rs, max, period, usage)[0].time < cfg.maxRelease
    ensures Charged(cfg, rs, max, period, usage) == usage
  {
  }

  lemma ChargedInFull(cfg: Timing, s: Cpu, usage: nat)
    requires Invariant(cfg, s) && s.context.period != 0
    requires ChargedBudget(cfg, s.context, usage).refills[0].time < cfg.maxRelease
    ensures Charged(cfg, s.context.refills, s.context.max, s.context.period, usage) == usage
  {
    var c := s.context;
    var bound := Later(c.refills[0].time, cfg.maxRelease + cfg.wcet) + cfg.maxPeriod;
    ChargeKeeps(cfg, c.refills, c.max, c.period, usage, s.budget, bound);
    MergeSmallKeeps(cfg, Charge(cfg, c.refills, c.max, c.period, usage), c.max, s.budget, bound);
    ChargedFully(cfg, c.refills, c.max, c.period, usage);
  }

  /** The time that passes in a step while the context is the current one, or is charged to it at a
      preemption point. */
  function RanIn(s: Cpu, step: Step): nat {
    match step
    case Entry(elapsed) => if s.running then elapsed else 0
    case Overrun(elapsed) => elapsed
    case _ => 0
  }

  /** In every step, the time spent running is charged or still counted as consumed, and nothing else is;
      only yielding gives up the rest of the head as well. */
  lemma {:induction false} NothingIsFree(cfg: Timing, s: Cpu, step: Step)
    requires Invariant(cfg, s) && Enabled(cfg, s, step) && s.context.period != 0 && !step.Configure?
    requires Next(cfg, s, step).context.refills[0].time < cfg.maxRelease
    ensures s.Since() + RanIn(s, step) <= ChargedIn(cfg, s, step) + Next(cfg, s, step).Since()
    ensures !step.Yield? ==> s.Since() + RanIn(s, step) == ChargedIn(cfg, s, step) + Next(cfg, s, step).Since()
  {
    hide Charged, BudgetCheck;
    match step
    case Entry(elapsed) =>
      if s.running && !Sufficient(cfg, s.context.refills, s.consumed + elapsed) { ChargedInFull(cfg, s, s.consumed + elapsed); }
    case Yield => ChargedInFull(cfg, s, s.context.refills[0].amount);
    case Preempt => if 0 < s.consumed { ChargedInFull(cfg, s, s.consumed); }
    case Overrun(elapsed) => ChargedInFull(cfg, s, s.Since() + elapsed);
    case Dispatch(_) =>
    case Wake =>
  }

  /** Sleeping saves nothing: a context that wakes up when it is ready, or is dispatched with constant
      bandwidth, has no time from before. */
  lemma {:induction false} SleepSavesNothing(cfg: Timing, s: Cpu, step: Step)
    requires Invariant(cfg, s) && Enabled(cfg, s, step) && s.context.period != 0 && Ready(cfg, s.context.refills, s.now)
    requires step.Wake? || (step.Dispatch? && step.constantBandwidth)
    ensures var rs := Next(cfg, s, step).context.refills;
      rs[0].time == s.now && forall k :: 0 <= k < |Ticks(rs)| ==> s.now <= Ticks(rs)[k]
  {
    StepSafe(cfg, s, step);
    UnblockKeeps(cfg, s.context.refills, s.now, s.context.max, s.budget, cfg.maxRelease + cfg.wcet + cfg.maxPeriod);
    HeadTick(Next(cfg, s, step).context.refills);
  }

  // ----- runs -----

  ghost function RanAll(cfg: Timing, s: Cpu, steps: seq<Step>): nat
    requires Invariant(cfg, s) && Legal(cfg, s, steps)
    decreases |steps|
  {
    if steps == [] then 0
    else (StepSafe(cfg, s, steps[0]); RanIn(s, steps[0]) + RanAll(cfg, Next(cfg, s, steps[0]), steps[1..]))
  }

  /** No step leaves the head at or past the release limit. */
  ghost predicate BelowLimit(cfg: Timing, s: Cpu, steps: seq<Step>)
    requires Invariant(cfg, s) && Legal(cfg, s, steps)
    decreases |steps|
  {
    steps == [] ||
    (StepSafe(cfg, s, steps[0]);
     var s' := Next(cfg, s, steps[0]);
     s'.context.refills[0].time < cfg.maxRelease && BelowLimit(cfg, s', steps[1..]))
  }

  lemma {:induction false} NothingIsFreeInRuns(cfg: Timing, s: Cpu, steps: seq<Step>)
    requires Invariant(cfg, s) && Legal(cfg, s, steps) && s.context.period != 0 && NeverConfigured(steps) && BelowLimit(cfg, s, steps)
    ensures s.Since() + RanAll(cfg, s, steps) <= ChargedAll(cfg, s, steps) + Run(cfg, s, steps).Since()
    decreases |steps|
  {
    hide Next, Enabled, Invariant, ChargedIn, RanIn;
    if steps != [] {
      StepSafe(cfg, s, steps[0]);
      StepTrails(cfg, s, steps[0]);
      NothingIsFree(cfg, s, steps[0]);
      NothingIsFreeInRuns(cfg, Next(cfg, s, steps[0]), steps[1..]);
    }
  }

  /** However often it is preempted, yields, overruns, sleeps and wakes: once a context has run for
      `m` whole budgets and is ready again, `m` periods have passed since its first head, up to
      `wcet` and what unblocking pulled forward. */
  lemma {:induction false} RunningTimePerPeriod(cfg: Timing, s: Cpu, steps: seq<Step>, m: nat)
    requires Invariant(cfg, s) && Legal(cfg, s, steps) && s.context.period != 0 && NeverConfigured(steps) && BelowLimit(cfg, s, steps)
    ensures var e := Run(cfg, s, steps);
      m * s.budget + e.Since() <= s.Since() + RanAll(cfg, s, steps) && Ready(cfg, e.context.refills, e.now) ==>
        s.context.refills[0].time + m * s.context.period <= e.now + cfg.wcet + EarlyAll(cfg, s, steps)
  {
    NothingIsFreeInRuns(cfg, s, steps);
    BudgetPerPeriod(cfg, s, steps, m);
  }
}
