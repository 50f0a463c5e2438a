/** Whole runs of one scheduling context: the refill operations as the kernel calls
    them, against a clock that never stops.  Every assertion the kernel makes on the way
    holds, and the context keeps its budget, in every run. */
module RefillRuns {
  import opened RefillList

  /** The refill state of a `sched_context`; a period of 0 means round robin. */
  datatype Context = Context(period: nat, max: nat, refills: Refills)

  function Later(a: nat, b: nat): nat { if a <= b then b else a }

  /** No refill lies further ahead than 64-bit time can express with room to spare. */
  ghost predicate Horizon(cfg: Timing, rs: Refills) {
    && rs[0].time <= cfg.maxRelease + cfg.wcet + cfg.maxPeriod
    && TimesAtMost(rs, Later(rs[0].time, cfg.maxRelease + cfg.wcet) + cfg.maxPeriod)
  }

  /** What an active context keeps: its refills always hold exactly the configured
      budget and the head holds at least the minimum budget. */
  ghost predicate WellFormed(cfg: Timing, c: Context, budget: nat) {
    && cfg.minBudget <= budget <= cfg.maxPeriod
    && MIN_REFILLS <= c.max
    && |c.refills| <= c.max
    && Sum(c.refills) == budget
    && cfg.minBudget <= c.refills[0].amount
    && Horizon(cfg, c.refills)
    && if c.period == 0 then |c.refills| == MIN_REFILLS
       else budget <= c.period <= cfg.maxPeriod && Positive(c.refills) && Ordered(c.refills)
  }

  // ----- operations on a context -----

  /** `refill_new`. */
  function Fresh(budget: nat, period: nat, max: nat, now: nat): Context {
    Context(period, max, New(budget, period, now))
  }

  /** `refill_update`. */
  function Reconfigured(cfg: Timing, c: Context, budget: nat, period: nat, max: nat, now: nat): Context {
    Context(period, max, Update(cfg, c.refills, period, budget, now))
  }

  /** `refill_unblock_check`. */
  function Unblocked(cfg: Timing, c: Context, now: nat): Context {
    if c.period == 0 then c else c.(refills := Unblock(cfg, c.refills, now))
  }

  /** Round robin: move `amount` ticks from the head to the tail. */
  function MoveToTail(rs: Refills, amount: nat): Refills
    requires |rs| == 2 && amount <= rs[0].amount
  {
    [Refill(rs[0].time, rs[0].amount - amount), Refill(rs[1].time, rs[1].amount + amount)]
  }

  /** Round robin: the whole time slice is back at the head. */
  function RefillHead(rs: Refills): Refills
    requires |rs| == 2
  {
    [Refill(rs[0].time, rs[0].amount + rs[1].amount), Refill(rs[1].time, 0)]
  }

  /** The refill part of `charge_budget`. */
  function ChargedBudget(cfg: Timing, c: Context, consumed: nat): Context
    requires c.period == 0 ==> |c.refills| == MIN_REFILLS
  {
    c.(refills := if c.period == 0 then RefillHead(c.refills)
                  else BudgetCheck(cfg, c.refills, c.max, c.period, consumed))
  }

  /** The refill part of `commit_time`. */
  function Committed(cfg: Timing, c: Context, consumed: nat): Context
    requires c.period == 0 ==> |c.refills| == MIN_REFILLS && consumed <= c.refills[0].amount
  {
    if consumed == 0 then c
    else c.(refills := if c.period == 0 then MoveToTail(c.refills, consumed)
                       else BudgetCheck(cfg, c.refills, c.max, c.period, consumed))
  }

  // ----- every operation keeps a context well formed -----

  lemma SumPair(a: Refill, b: Refill)
    ensures Sum([a, b]) == a.amount + b.amount
  {
    assert [a, b][1..] == [b];
    SumSingle([b]);
  }

  lemma FreshKeeps(cfg: Timing, budget: nat, period: nat, max: nat, now: nat)
    requires cfg.Valid() && now < cfg.maxRelease && MIN_REFILLS <= max
    requires cfg.minBudget <= budget <= cfg.maxPeriod
    requires period == 0 || budget <= period <= cfg.maxPeriod
    ensures var c := Fresh(budget, period, max, now);
      WellFormed(cfg, c, budget) && c.refills[0] == Refill(now, budget) && c.period == period && c.max == max
  {
    if period == 0 {
      SumPair(Refill(now, budget), Refill(now, 0));
    } else {
      SumSingle([Refill(now, budget)]);
    }
  }

  lemma ReconfiguredKeeps(cfg: Timing, c: Context, oldBudget: nat, budget: nat, period: nat, max: nat, now: nat)
    requires cfg.Valid() && WellFormed(cfg, c, oldBudget) && now < cfg.maxRelease && MIN_REFILLS <= max
    requires cfg.minBudget <= budget <= cfg.maxPeriod
    requires period == 0 || budget <= period <= cfg.maxPeriod
    ensures var c' := Reconfigured(cfg, c, budget, period, max, now);
            && WellFormed(cfg, c', budget)
            && c'.refills[0].time == if Ready(cfg, c.refills, now) then now else c.refills[0].time
  {
    var r := Reconfigured(cfg, c, budget, period, max, now).refills;
    if |r| == 1 { SumSingle(r); } else { assert r == [r[0], r[1]]; SumPair(r[0], r[1]); }
  }

  lemma UnblockedKeeps(cfg: Timing, c: Context, budget: nat, now: nat)
    requires cfg.Valid() && WellFormed(cfg, c, budget) && now < cfg.maxRelease
    ensures var c' := Unblocked(cfg, c, now);
            && WellFormed(cfg, c', budget)
            && (Ready(cfg, c.refills, now) ==> Ready(cfg, c'.refills, now))
  {
    if c.period != 0 && Ready(cfg, c.refills, now) {
      UnblockKeeps(cfg, c.refills, now, c.max, budget, cfg.maxRelease + cfg.wcet + cfg.maxPeriod);
    }
  }

  /** A head at or past the release limit is not charged at all. */
  lemma PastLimitUncharged(cfg: Timing, rs: Refills, max: nat, period: nat, usage: nat)
    requires cfg.maxRelease <= rs[0].time && cfg.minBudget <= rs[0].amount
    ensures BudgetCheck(cfg, rs, max, period, usage) == rs
  {
  }

  lemma BudgetCheckWellFormed(cfg: Timing, c: Context, budget: nat, usage: nat)
    requires cfg.Valid() && WellFormed(cfg, c, budget) && c.period != 0
    ensures WellFormed(cfg, c.(refills := BudgetCheck(cfg, c.refills, c.max, c.period, usage)), budget)
  {
    if c.refills[0].time < cfg.maxRelease {
      BudgetCheckKeeps(cfg, c.refills, c.max, c.period, usage, budget, cfg.maxRelease + cfg.wcet + cfg.maxPeriod);
    } else {
      PastLimitUncharged(cfg, c.refills, c.max, c.period, usage);
    }
  }

  lemma ChargedBudgetKeeps(cfg: Timing, c: Context, budget: nat, consumed: nat)
    requires cfg.Valid() && WellFormed(cfg, c, budget)
    ensures WellFormed(cfg, ChargedBudget(cfg, c, consumed), budget)
  {
    if c.period == 0 {
      assert c.refills == [c.refills[0], c.refills[1]];
      SumPair(c.refills[0], c.refills[1]);
      var r := RefillHead(c.refills);
      SumPair(r[0], r[1]);
    } else {
      BudgetCheckWellFormed(cfg, c, budget, consumed);
    }
  }

  /** A charge that leaves the head sufficient uses only the head. */
  lemma SufficientCharge(cfg: Timing, c: Context, budget: nat, usage: nat)
    requires cfg.Valid() && WellFormed(cfg, c, budget) && c.period != 0
    requires 0 < usage && Sufficient(cfg, c.refills, usage)
    ensures var r := BudgetCheck(cfg, c.refills, c.max, c.period, usage);
            r[0].time == c.refills[0].time + (if c.refills[0].time < cfg.maxRelease then usage else 0)
  {
    if c.refills[0].time < cfg.maxRelease {
      ChargePartKeeps(c.refills, c.max, c.period, usage, budget, cfg.maxRelease + cfg.wcet + cfg.maxPeriod);
    }
  }

  lemma CommittedKeeps(cfg: Timing, c: Context, budget: nat, consumed: nat)
    requires cfg.Valid() && WellFormed(cfg, c, budget) && Sufficient(cfg, c.refills, consumed)
    ensures var c' := Committed(cfg, c, consumed);
            && WellFormed(cfg, c', budget)
            && c'.refills[0].time <= c.refills[0].time + consumed
  {
    if consumed == 0 {
    } else if c.period == 0 {
      assert c.refills == [c.refills[0], c.refills[1]];
      SumPair(c.refills[0], c.refills[1]);
      var r := MoveToTail(c.refills, consumed);
      SumPair(r[0], r[1]);
    } else {
      BudgetCheckWellFormed(cfg, c, budget, consumed);
      SufficientCharge(cfg, c, budget, consumed);
    }
  }

  /** Round robin: committing takes what was consumed out of the head and keeps it in the tail, where
      it waits until the time slice ends; then the head holds the whole budget again.  Times do
      not matter and do not change. */
  lemma RoundRobinSlice(cfg: Timing, c: Context, budget: nat, consumed: nat)
    requires WellFormed(cfg, c, budget) && c.period == 0
    ensures var e := ChargedBudget(cfg, c, consumed).refills;
      |e| == 2 && e[0].amount == budget && e[1].amount == 0 && (e[0].time, e[1].time) == (c.refills[0].time, c.refills[1].time)
    ensures consumed <= c.refills[0].amount ==>
      var e := Committed(cfg, c, consumed).refills;
      |e| == 2 && e[0].amount == c.refills[0].amount - consumed && e[1].amount == budget - e[0].amount &&
      (e[0].time, e[1].time) == (c.refills[0].time, c.refills[1].time)
  {
    assert c.refills == [c.refills[0], c.refills[1]];
    SumPair(c.refills[0], c.refills[1]);
  }

  // ----- runs -----

  /** A context, the clock, and, while it is the current context of the CPU, the time
      consumed since it was last charged. */
  datatype Cpu = Cpu(context: Context, budget: nat, now: nat, consumed: nat, running: bool) {
    function Since(): nat { if running then consumed else 0 }
  }

  datatype Step =
    | Entry(elapsed: nat)                                              // update_timestamp, check_budget
    | Yield                                                            // handle_yield
    | Preempt                                                          // commit_time, then another context
    | Overrun(elapsed: nat)                                            // mcs_preemption_point, thread not schedulable
    | Dispatch(constantBandwidth: bool)                                // switch_sched_context
    | Wake                                                             // refill_unblock_check on wake-up
    | Configure(budget: nat, period: nat, max: nat, update: bool)      // invoke_sched_control_configure_flags

  /** What the kernel checks, or the scheduler guarantees, before it takes a step. */
  ghost predicate Enabled(cfg: Timing, s: Cpu, step: Step) {
    match step
    case Entry(elapsed) => s.now + elapsed < cfg.maxRelease
    case Yield => s.running
    case Preempt => s.running
    case Overrun(elapsed) => s.now + elapsed < cfg.maxRelease
    case Dispatch(_) => !s.running && Ready(cfg, s.context.refills, s.now)
    case Wake => !s.running
    case Configure(budget, period, max, _) =>
      cfg.minBudget <= budget <= period <= cfg.maxPeriod && MIN_REFILLS <= max
  }

  ghost predicate Invariant(cfg: Timing, s: Cpu) {
    && cfg.Valid()
    && WellFormed(cfg, s.context, s.budget)
    && s.now < cfg.maxRelease
    && (s.running ==>
          && Sufficient(cfg, s.context.refills, s.consumed)
          && s.context.refills[0].time + s.consumed <= s.now + cfg.wcet)
  }

  function Commit(cfg: Timing, s: Cpu): Cpu
    requires s.running && s.context.period == 0 ==>
               |s.context.refills| == MIN_REFILLS && s.consumed <= s.context.refills[0].amount
  {
    if s.running then s.(context := Committed(cfg, s.context, s.consumed), consumed := 0) else s
  }

  ghost function Next(cfg: Timing, s: Cpu, step: Step): Cpu
    requires Invariant(cfg, s)
  {
    var c := s.context;
    match step
    case Entry(elapsed) =>
      var now, used := s.now + elapsed, s.consumed + elapsed;
      if !s.running then s.(now := now)
      else if Sufficient(cfg, c.refills, used) then s.(now := now, consumed := used)
      else s.(context := ChargedBudget(cfg, c, used), now := now, consumed := 0, running := false)
    case Yield =>
      s.(context := ChargedBudget(cfg, c, c.refills[0].amount), consumed := 0, running := false)
    case Preempt =>
      Commit(cfg, s).(running := false)
    case Overrun(elapsed) =>
      s.(context := ChargedBudget(cfg, c, s.Since() + elapsed), now := s.now + elapsed, consumed := 0, running := false)
    case Dispatch(constantBandwidth) =>
      s.(context := if constantBandwidth then Unblocked(cfg, c, s.now) else c, consumed := 0, running := true)
    case Wake =>
      s.(context := Unblocked(cfg, c, s.now))
    case Configure(budget, period, max, update) =>
      var b := Commit(cfg, s);
      b.(budget := budget,
         context := if budget == period then Fresh(budget, 0, MIN_REFILLS, s.now)
                    else if update then Reconfigured(cfg, b.context, budget, period, max, s.now)
                    else Fresh(budget, period, max, s.now))
  }

  /** The assertions the kernel makes while it takes a step. */
  ghost predicate AssertsHold(cfg: Timing, s: Cpu, step: Step)
    requires Invariant(cfg, s)
  {
    var after := Next(cfg, s, step);
    match step
    case Entry(elapsed) =>  // check_budget and charge_budget
      s.running ==>
        && Ready(cfg, s.context.refills, s.now + elapsed)
        && (!after.running && s.context.period == 0 ==> |s.context.refills| == MIN_REFILLS)
        && Sufficient(cfg, after.context.refills, 0)
    case Yield =>
      && (s.context.period == 0 ==> |s.context.refills| == MIN_REFILLS)
      && Sufficient(cfg, after.context.refills, 0)
    case Preempt =>  // commit_time
      0 < s.consumed ==>
        && Sufficient(cfg, s.context.refills, s.consumed) && Ready(cfg, s.context.refills, s.now)
        && (s.context.period == 0 ==> |s.context.refills| == MIN_REFILLS)
        && Sufficient(cfg, after.context.refills, 0) && Ready(cfg, after.context.refills, s.now)
    case Overrun(_) =>
      && (s.context.period == 0 ==> |s.context.refills| == MIN_REFILLS)
      && Sufficient(cfg, after.context.refills, 0)
    case Dispatch(_) =>  // switch_sched_context
      Ready(cfg, after.context.refills, s.now) && Sufficient(cfg, after.context.refills, 0)
    case Wake =>
      Sufficient(cfg, after.context.refills, 0)
    case Configure(_, _, _, _) =>  // check_budget, commit_time, scRefillMax > 0
      && (s.running ==> Sufficient(cfg, s.context.refills, s.consumed) && Ready(cfg, s.context.refills, s.now))
      && 0 < after.context.max
  }

  lemma StepSafe(cfg: Timing, s: Cpu, step: Step)
    requires Invariant(cfg, s) && Enabled(cfg, s, step)
    ensures Invariant(cfg, Next(cfg, s, step)) && AssertsHold(cfg, s, step)
  {
    hide Invariant, Next, AssertsHold, Enabled;
    match step
    case Entry(_) => ChargeSafe(cfg, s, step);
    case Yield => ChargeSafe(cfg, s, step);
    case Preempt => PreemptSafe(cfg, s);
    case Overrun(_) => ChargeSafe(cfg, s, step);
    case Dispatch(_) => UnblockSafe(cfg, s, step);
    case Wake => UnblockSafe(cfg, s, step);
    case Configure(_, _, _, _) => ConfigureSafe(cfg, s, step);
  }

  lemma ChargeSafe(cfg: Timing, s: Cpu, step: Step)
    requires Invariant(cfg, s) && Enabled(cfg, s, step) && (step.Entry? || step.Yield? || step.Overrun?)
    ensures Invariant(cfg, Next(cfg, s, step)) && AssertsHold(cfg, s, step)
  {
    hide ChargedBudget;
    match step
    case Entry(elapsed) => ChargedBudgetKeeps(cfg, s.context, s.budget, s.consumed + elapsed);
    case Yield => ChargedBudgetKeeps(cfg, s.context, s.budget, s.context.refills[0].amount);
    case Overrun(elapsed) => ChargedBudgetKeeps(cfg, s.context, s.budget, s.Since() + elapsed);
  }

  lemma PreemptSafe(cfg: Timing, s: Cpu)
    requires Invariant(cfg, s) && Enabled(cfg, s, Preempt)
    ensures Invariant(cfg, Next(cfg, s, Preempt)) && AssertsHold(cfg, s, Preempt)
  {
    CommittedKeeps(cfg, s.context, s.budget, s.consumed);
    hide Committed;
  }

  lemma UnblockSafe(cfg: Timing, s: Cpu, step: Step)
    requires Invariant(cfg, s) && Enabled(cfg, s, step) && (step.Dispatch? || step.Wake?)
    ensures Invariant(cfg, Next(cfg, s, step)) && AssertsHold(cfg, s, step)
  {
    UnblockedKeeps(cfg, s.context, s.budget, s.now);
    hide Unblocked;
  }

  lemma ConfigureSafe(cfg: Timing, s: Cpu, step: Step)
    requires Invariant(cfg, s) && Enabled(cfg, s, step) && step.Configure?
    ensures Invariant(cfg, Next(cfg, s, step)) && AssertsHold(cfg, s, step)
  {
    if s.running { CommittedKeeps(cfg, s.context, s.budget, s.consumed); }
    if step.budget == step.period {
      FreshKeeps(cfg, step.budget, 0, MIN_REFILLS, s.now);
    } else if step.update {
      ReconfiguredKeeps(cfg, Commit(cfg, s).context, s.budget, step.budget, step.period, step.max, s.now);
    } else {
      FreshKeeps(cfg, step.budget, step.period, step.max, s.now);
    }
  }

  ghost predicate Legal(cfg: Timing, s: Cpu, steps: seq<Step>)
    requires Invariant(cfg, s)
    decreases |steps|
  {
    steps == [] ||
    (Enabled(cfg, s, steps[0]) && (StepSafe(cfg, s, steps[0]); Legal(cfg, Next(cfg, s, steps[0]), steps[1..])))
  }

  ghost predicate AlwaysAsserts(cfg: Timing, s: Cpu, steps: seq<Step>)
    requires Invariant(cfg, s) && Legal(cfg, s, steps)
    decreases |steps|
  {
    steps == [] ||
    (StepSafe(cfg, s, steps[0]);
     AssertsHold(cfg, s, steps[0]) && AlwaysAsserts(cfg, Next(cfg, s, steps[0]), steps[1..]))
  }

  ghost function Run(cfg: Timing, s: Cpu, steps: seq<Step>): Cpu
    requires Invariant(cfg, s) && Legal(cfg, s, steps)
    decreases |steps|
  {
    if steps == [] then s else (StepSafe(cfg, s, steps[0]); Run(cfg, Next(cfg, s, steps[0]), steps[1..]))
  }

  /** The budget most recently configured in a run. */
  function Configured(budget: nat, steps: seq<Step>): nat
    decreases |steps|
  {
    if steps == [] then budget
    else Configured(if steps[0].Configure? then steps[0].budget else budget, steps[1..])
  }

  /** From a freshly configured context, every run keeps the refills summing to the
      budget configured last, keeps the head at the minimum budget or more, keeps the
      refills of a context that is not round robin positive, ordered and disjoint, and
      never fails one of the kernel's assertions. */
  lemma {:induction false} RunsAreSafe(cfg: Timing, s: Cpu, steps: seq<Step>)
    requires Invariant(cfg, s) && Legal(cfg, s, steps)
    ensures AlwaysAsserts(cfg, s, steps)
    ensures var e := Run(cfg, s, steps);
            Invariant(cfg, e) && e.budget == Sum(e.context.refills) == Configured(s.budget, steps)
    decreases |steps|
  {
    if steps != [] {
      StepSafe(cfg, s, steps[0]);
      RunsAreSafe(cfg, Next(cfg, s, steps[0]), steps[1..]);
    }
  }

  lemma FreshIsInvariant(cfg: Timing, budget: nat, period: nat, max: nat, now: nat)
    requires cfg.Valid() && now < cfg.maxRelease && MIN_REFILLS <= max
    requires cfg.minBudget <= budget <= period <= cfg.maxPeriod
    ensures Invariant(cfg, Cpu(Fresh(budget, period, max, now), budget, now, 0, false))
  {
    FreshKeeps(cfg, budget, period, max, now);
  }
}
