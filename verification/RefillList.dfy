/** The refill list of a scheduling context, in head-to-tail order, and what every
    refill operation of `sched_context` does to it.  The ring buffer that stores the
    list is in SchedContext.dfy; here a refill list is a plain sequence. */
module RefillList {

  /** `amount` ticks of budget that become usable from `time` on. */
  datatype Refill = Refill(time: nat, amount: nat) {
    function End(): nat { time + amount }
  }

  const UINT64_MAX: nat := 0xFFFF_FFFF_FFFF_FFFF
  const MIN_REFILLS: nat := 2

  /** The timing constants of a platform, in ticks. */
  datatype Timing = Timing(wcet: nat, minBudget: nat, maxPeriod: nat, maxRelease: nat) {
    ghost predicate Valid() {
      && 0 < wcet
      && 2 * wcet <= minBudget <= maxPeriod
      && maxRelease + 5 * maxPeriod == UINT64_MAX
    }
  }

  type Refills = rs: seq<Refill> | 0 < |rs| witness [Refill(0, 0)]

  function Sum(rs: seq<Refill>): nat {
    if rs == [] then 0 else rs[0].amount + Sum(rs[1..])
  }

  ghost predicate Positive(rs: seq<Refill>) {
    forall i :: 0 <= i < |rs| ==> 0 < rs[i].amount
  }

  /** Time-ordered and non-overlapping. */
  ghost predicate Ordered(rs: seq<Refill>) {
    forall i :: 0 <= i < |rs| - 1 ==> rs[i].End() <= rs[i + 1].time
  }

  // ----- operations -----

  function Last(rs: Refills): Refill { rs[|rs| - 1] }

  function SetLast(rs: Refills, r: Refill): Refills { rs[|rs| - 1 := r] }

  /** `schedule_used`: give `amount` back at `time`, by growing the tail, by a new
      tail, or, in a full ring, by folding it into a deferred tail. */
  function ScheduleUsed(rs: Refills, max: nat, time: nat, amount: nat): Refills {
    var last := Last(rs);
    if last.End() >= time then SetLast(rs, Refill(last.time, last.amount + amount))
    else if |rs| < max then rs + [Refill(time, amount)]
    else SetLast(rs, Refill(time - last.amount, last.amount + amount))
  }

  /** One turn of the first loop of `refill_budget_check`: the whole head is used up. */
  function ChargeHead(rs: Refills, max: nat, period: nat): Refills {
    var head := rs[0];
    if |rs| == 1 then [Refill(head.time + period, head.amount)]
    else ScheduleUsed(rs[1..], max, head.time + period, head.amount)
  }

  /** The first loop; also returns the usage that is left. */
  function ChargeHeads(cfg: Timing, rs: Refills, max: nat, period: nat, usage: nat): (res: (Refills, nat))
    decreases usage
  {
    if rs[0].amount <= usage && rs[0].time < cfg.maxRelease && 0 < rs[0].amount then
      ChargeHeads(cfg, ChargeHead(rs, max, period), max, period, usage - rs[0].amount)
    else
      (rs, usage)
  }

  /** The head is used up in part. */
  function ChargePart(rs: Refills, max: nat, period: nat, usage: nat): Refills
    requires usage <= rs[0].amount
  {
    ScheduleUsed(rs[0 := Refill(rs[0].time + usage, rs[0].amount - usage)], max, rs[0].time + period, usage)
  }

  /** A head merged into its successor, which starts that much earlier. */
  function MergeOnce(rs: Refills): Refills
    requires 1 < |rs| && rs[0].amount <= rs[1].time
  {
    [Refill(rs[1].time - rs[0].amount, rs[1].amount + rs[0].amount)] + rs[2..]
  }

  /** The last loop: a head below the minimum budget is merged into its successor. */
  function MergeSmall(cfg: Timing, rs: Refills): Refills
    decreases |rs|
  {
    if rs[0].amount < cfg.minBudget && 1 < |rs| && rs[0].amount <= rs[1].time then MergeSmall(cfg, MergeOnce(rs))
    else rs
  }

  /** Charging before the last loop of `refill_budget_check`. */
  function Charge(cfg: Timing, rs: Refills, max: nat, period: nat, usage: nat): Refills {
    var (rs1, left) := ChargeHeads(cfg, rs, max, period, usage);
    if 0 < left < rs1[0].amount && rs1[0].time < cfg.maxRelease then ChargePart(rs1, max, period, left) else rs1
  }

  /** The part of `usage` that is charged: a head at or past the release limit stops charging. */
  function Charged(cfg: Timing, rs: Refills, max: nat, period: nat, usage: nat): nat {
    var (rs1, left) := ChargeHeads(cfg, rs, max, period, usage);
    if left <= usage && !(rs1[0].time < cfg.maxRelease) then usage - left else usage
  }

  /** `refill_budget_check`. */
  function BudgetCheck(cfg: Timing, rs: Refills, max: nat, period: nat, usage: nat): Refills {
    MergeSmall(cfg, Charge(cfg, rs, max, period, usage))
  }

  predicate Ready(cfg: Timing, rs: Refills, now: nat) { rs[0].time <= now + cfg.wcet }

  predicate Sufficient(cfg: Timing, rs: Refills, usage: nat) { usage <= rs[0].amount && cfg.minBudget <= rs[0].amount - usage }

  /** The loop of `refill_unblock_check`: the head absorbs every refill it reaches. */
  function AbsorbOverlap(rs: Refills): Refills
    decreases |rs|
  {
    if 1 < |rs| && rs[1].time <= rs[0].End() then
      AbsorbOverlap([Refill(rs[0].time, rs[1].amount + rs[0].amount)] + rs[2..])
    else rs
  }

  /** `refill_unblock_check` of a context that is not round robin. */
  function Unblock(cfg: Timing, rs: Refills, now: nat): Refills {
    if Ready(cfg, rs, now) then AbsorbOverlap(rs[0 := Refill(now, rs[0].amount)]) else rs
  }

  /** `refill_new`. */
  function New(budget: nat, period: nat, now: nat): Refills {
    [Refill(now, budget)] + (if period == 0 then [Refill(now, 0)] else [])
  }

  /** A single refill trimmed to `budget`, or topped up to it one period later. */
  function Rebudget(head: Refill, period: nat, budget: nat): Refills {
    if budget <= head.amount then
      [Refill(head.time, budget)] + (if period == 0 then [Refill(head.time, 0)] else [])
    else
      [head, Refill(head.time + period, budget - head.amount)]
  }

  /** `refill_update`. */
  function Update(cfg: Timing, rs: Refills, period: nat, budget: nat, now: nat): Refills {
    Rebudget(if Ready(cfg, rs, now) then Refill(now, rs[0].amount) else rs[0], period, budget)
  }

  // ----- sums -----

  lemma {:induction false} SumAppend(a: seq<Refill>, b: seq<Refill>)
    ensures Sum(a + b) == Sum(a) + Sum(b)
  {
    if a == [] {
      assert a + b == b;
    } else {
      assert (a + b)[1..] == a[1..] + b;
      SumAppend(a[1..], b);
    }
  }

  lemma {:induction false} SumSingle(rs: Refills)
    requires |rs| == 1
    ensures Sum(rs) == rs[0].amount
  {
    assert rs[1..] == [];
  }

  lemma {:induction false} SumSplitLast(rs: Refills)
    ensures Sum(rs) == Sum(rs[..|rs| - 1]) + Last(rs).amount
  {
    assert rs == rs[..|rs| - 1] + [Last(rs)];
    SumAppend(rs[..|rs| - 1], [Last(rs)]);
  }

  lemma {:induction false} SumMember(rs: seq<Refill>, i: nat)
    requires i < |rs|
    ensures rs[i].amount <= Sum(rs)
  {
    if i > 0 { SumMember(rs[1..], i - 1); }
  }

  // ----- what charging keeps -----

  ghost predicate TimesAtMost(rs: seq<Refill>, bound: nat) {
    forall i :: 0 <= i < |rs| ==> rs[i].time <= bound
  }

  /** The shape a refill list keeps: at most `max` refills holding `budget` ticks
      between them, none empty, none overlapping, none later than `bound`. */
  ghost predicate Shape(rs: Refills, max: nat, budget: nat, bound: nat) {
    && |rs| <= max && Sum(rs) == budget
    && Positive(rs) && Ordered(rs) && TimesAtMost(rs, bound)
  }

  lemma ScheduleUsedKeeps(rs: Refills, max: nat, budget: nat, bound: nat, time: nat, amount: nat)
    requires Shape(rs, max, budget, bound) && 0 < amount && time <= bound
    ensures var r := ScheduleUsed(rs, max, time, amount);
            && Shape(r, max, budget + amount, bound)
            && rs[0].time <= r[0].time && rs[0].amount <= r[0].amount
            && (1 < |rs| ==> r[0] == rs[0])
            && (|rs| < max ==> rs[0].time == r[0].time)
  {
    var r := ScheduleUsed(rs, max, time, amount);
    SumSplitLast(rs);
    SumSplitLast(r);
    if |r| == |rs| {
      assert r[..|r| - 1] == rs[..|rs| - 1];
    } else {
      assert r[..|r| - 1] == rs;
    }
  }

  lemma ChargeHeadKeeps(rs: Refills, max: nat, period: nat, budget: nat, bound: nat)
    requires Shape(rs, max, budget, bound) && rs[0].time + period <= bound
    ensures Shape(ChargeHead(rs, max, period), max, budget, bound)
    ensures rs[0].time <= ChargeHead(rs, max, period)[0].time
  {
    if |rs| > 1 {
      var rest := rs[1..];
      assert Positive(rest) && Ordered(rest) && TimesAtMost(rest, bound);
      assert Shape(rest, max, budget - rs[0].amount, bound);
      ScheduleUsedKeeps(rest, max, budget - rs[0].amount, bound, rs[0].time + period, rs[0].amount);
    } else {
      SumSingle(rs);
      SumSingle(ChargeHead(rs, max, period));
    }
  }

  lemma {:induction false} ChargeHeadsKeeps(cfg: Timing, rs: Refills, max: nat, period: nat, usage: nat, budget: nat, bound: nat)
    requires Shape(rs, max, budget, bound) && cfg.maxRelease + period <= bound
    ensures var (r, left) := ChargeHeads(cfg, rs, max, period, usage);
            && Shape(r, max, budget, bound) && rs[0].time <= r[0].time
            && left <= usage && (left < r[0].amount || cfg.maxRelease <= r[0].time)
    decreases usage
  {
    if rs[0].amount <= usage && rs[0].time < cfg.maxRelease {
      ChargeHeadKeeps(rs, max, period, budget, bound);
      ChargeHeadsKeeps(cfg, ChargeHead(rs, max, period), max, period, usage - rs[0].amount, budget, bound);
    }
  }

  lemma {:induction false} ChargeHeadsTurn(cfg: Timing, rs: Refills, max: nat, period: nat, usage: nat)
    requires 0 < rs[0].amount
    ensures ChargeHeads(cfg, rs, max, period, usage) ==
      if rs[0].amount <= usage && rs[0].time < cfg.maxRelease
      then ChargeHeads(cfg, ChargeHead(rs, max, period), max, period, usage - rs[0].amount) else (rs, usage)
  {
  }

  lemma ChargePartKeeps(rs: Refills, max: nat, period: nat, usage: nat, budget: nat, bound: nat)
    requires Shape(rs, max, budget, bound) && rs[0].time + period <= bound
    requires 0 < usage < rs[0].amount && budget <= period
    ensures Shape(ChargePart(rs, max, period, usage), max, budget, bound)
    ensures 1 < max ==> ChargePart(rs, max, period, usage)[0].time == rs[0].time + usage
    ensures rs[0].amount - usage <= ChargePart(rs, max, period, usage)[0].amount
  {
    var cut := rs[0 := Refill(rs[0].time + usage, rs[0].amount - usage)];
    assert cut[1..] == rs[1..];
    SumMember(rs, 0);
    assert Shape(cut, max, budget - usage, bound);
    ScheduleUsedKeeps(cut, max, budget - usage, bound, rs[0].time + period, usage);
  }

  lemma ChargeKeeps(cfg: Timing, rs: Refills, max: nat, period: nat, usage: nat, budget: nat, bound: nat)
    requires Shape(rs, max, budget, bound) && cfg.maxRelease + period <= bound && budget <= period && 1 < max
    ensures Shape(Charge(cfg, rs, max, period, usage), max, budget, bound)
    ensures rs[0].time <= Charge(cfg, rs, max, period, usage)[0].time
  {
    ChargeHeadsKeeps(cfg, rs, max, period, usage, budget, bound);
    var (r, left) := ChargeHeads(cfg, rs, max, period, usage);
    if 0 < left < r[0].amount && r[0].time < cfg.maxRelease {
      ChargePartKeeps(r, max, period, left, budget, bound);
    }
  }

  lemma MergeOnceKeeps(rs: Refills, max: nat, budget: nat, bound: nat, minBudget: nat)
    requires Shape(rs, max, budget, bound) && rs[0].amount < minBudget <= budget
    ensures 1 < |rs| && rs[0].amount <= rs[1].time && rs[0].amount + rs[1].amount <= budget
    ensures Shape(MergeOnce(rs), max, budget, bound)
  {
    if |rs| == 1 { SumSingle(rs); }
    SumMember(rs[1..], 0);
    var merged := MergeOnce(rs);
    assert merged[1..] == rs[1..][1..] == rs[2..];
    forall i | 0 <= i < |merged| - 1 ensures merged[i].End() <= merged[i + 1].time {
      assert merged[i].End() == rs[i + 1].End() <= rs[i + 2].time;
    }
  }

  lemma {:induction false} MergeSmallKeeps(cfg: Timing, rs: Refills, max: nat, budget: nat, bound: nat)
    requires Shape(rs, max, budget, bound) && cfg.minBudget <= budget
    ensures var r := MergeSmall(cfg, rs);
            && Shape(r, max, budget, bound) && cfg.minBudget <= r[0].amount && rs[0].time <= r[0].time
    decreases |rs|
  {
    if rs[0].amount < cfg.minBudget {
      MergeOnceKeeps(rs, max, budget, bound, cfg.minBudget);
      MergeSmallKeeps(cfg, MergeOnce(rs), max, budget, bound);
    }
  }

  /** Charging keeps the shape and restores the minimum budget of the head. */
  lemma BudgetCheckKeeps(cfg: Timing, rs: Refills, max: nat, period: nat, usage: nat, budget: nat, bound: nat)
    requires Shape(rs, max, budget, bound)
    requires cfg.minBudget <= budget <= period && 1 < max && cfg.maxRelease + period <= bound
    ensures var r := BudgetCheck(cfg, rs, max, period, usage);
            && Shape(r, max, budget, bound) && cfg.minBudget <= r[0].amount && rs[0].time <= r[0].time
  {
    ChargeKeeps(cfg, rs, max, period, usage, budget, bound);
    MergeSmallKeeps(cfg, Charge(cfg, rs, max, period, usage), max, budget, bound);
  }

  // ----- what unblocking keeps -----

  lemma {:induction false} AbsorbOverlapKeeps(rs: Refills, max: nat, budget: nat, bound: nat)
    requires |rs| <= max && Sum(rs) == budget && Positive(rs) && TimesAtMost(rs, bound) && Ordered(rs[1..])
    ensures var r := AbsorbOverlap(rs);
            && Shape(r, max, budget, bound) && r[0].time == rs[0].time && rs[0].amount <= r[0].amount
    decreases |rs|
  {
    if 1 < |rs| && rs[1].time <= rs[0].End() {
      var merged := [Refill(rs[0].time, rs[1].amount + rs[0].amount)] + rs[2..];
      assert merged[1..] == rs[1..][1..] == rs[2..];
      AbsorbOverlapKeeps(merged, max, budget, bound);
    } else {
      forall i | 0 <= i < |rs| - 1 ensures rs[i].End() <= rs[i + 1].time {
        if i > 0 { assert rs[1..][i - 1].End() <= rs[1..][i].time; }
      }
    }
  }

  lemma UnblockKeeps(cfg: Timing, rs: Refills, now: nat, max: nat, budget: nat, bound: nat)
    requires Shape(rs, max, budget, bound) && now <= bound
    ensures var r := Unblock(cfg, rs, now);
            && Shape(r, max, budget, bound) && rs[0].amount <= r[0].amount
            && r[0].time == if Ready(cfg, rs, now) then now else rs[0].time
  {
    if Ready(cfg, rs, now) {
      var moved := rs[0 := Refill(now, rs[0].amount)];
      assert moved[1..] == rs[1..];
      AbsorbOverlapKeeps(moved, max, budget, bound);
    }
  }
}
