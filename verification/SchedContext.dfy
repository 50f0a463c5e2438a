/** The scheduling context object: a ring buffer of refills in 64-bit ticks.  Each method
    is proved to do to the ring what the matching function of RefillList does to the list,
    and, because `u64` arithmetic is checked, never to wrap. */
module SchedContext {
  import opened RefillList
  import opened RefillRuns

  newtype u64 = x: int | 0 <= x <= 0xFFFF_FFFF_FFFF_FFFF

  datatype Slot = Slot(rTime: u64, rAmount: u64) {
    ghost function Abs(): Refill { Refill(rTime as nat, rAmount as nat) }
  }

  ghost function Wrap(i: nat, max: nat): nat { if i < max then i else i - max }

  class SchedContext {
    const cfg: Timing
    var scPeriod: u64
    var scConsumed: u64
    var scRefillMax: nat
    var scRefillHead: nat
    var scRefillTail: nat
    var ring: array<Slot>

    ghost var refills: Refills  // what the ring holds, from head to tail
    ghost var budget: nat       // the configured budget

    predicate Indices()
      reads this`scRefillMax, this`scRefillHead, this`scRefillTail, this`ring
    {
      0 < scRefillMax <= ring.Length && scRefillHead < scRefillMax && scRefillTail < scRefillMax
    }

    function RefillNext(index: nat): (next: nat)
      requires Indices() && index < scRefillMax
      reads this`scRefillMax, this`scRefillHead, this`scRefillTail, this`ring
      ensures next < scRefillMax
    {
      if index == scRefillMax - 1 then 0 else index + 1
    }

    function RefillSize(): (size: nat)
      requires Indices()
      reads this`scRefillMax, this`scRefillHead, this`scRefillTail, this`ring
      ensures 0 < size <= scRefillMax
    {
      if scRefillHead <= scRefillTail then scRefillTail - scRefillHead + 1
      else scRefillTail + 1 + (scRefillMax - scRefillHead)
    }

    /** The ring holds `refills`. */
    ghost predicate RingOk()
      reads this`scRefillMax, this`scRefillHead, this`scRefillTail, this`ring, this`refills, ring
    {
      && Indices()
      && |refills| == RefillSize()
      && forall i :: 0 <= i < |refills| ==> refills[i] == ring[Wrap(scRefillHead + i, scRefillMax)].Abs()
    }

    ghost function Abs(): Context
      reads this`scPeriod, this`scRefillMax, this`refills
    {
      Context(scPeriod as nat, scRefillMax, refills)
    }

    /** An active context. */
    ghost predicate Valid()
      reads this, ring
    {
      cfg.Valid() && RingOk() && WellFormed(cfg, Abs(), budget)
    }

    constructor (cfg: Timing, capacity: nat)
      ensures this.cfg == cfg && fresh(ring) && ring.Length == capacity && scRefillMax == 0 && scConsumed == 0
    {
      this.cfg := cfg;
      scPeriod, scConsumed := 0, 0;
      scRefillMax, scRefillHead, scRefillTail := 0, 0, 0;
      ring := new Slot[capacity](_ => Slot(0, 0));
      refills, budget := [Refill(0, 0)], 0;
    }

    predicate IsRoundRobin()
      reads this`scPeriod
    {
      scPeriod == 0
    }

    // ----- single steps on the ring -----

    /** Removes the head; the slot it occupied keeps its contents. */
    method RefillPopHead() returns (oldHead: nat)
      requires RingOk() && scRefillHead != scRefillTail
      modifies this`scRefillHead, this`refills
      ensures RingOk() && |old(refills)| > 1 && refills == old(refills)[1..]
      ensures oldHead == old(scRefillHead) && ring[oldHead].Abs() == old(refills)[0]
    {
      var prevSize := RefillSize();
      oldHead := scRefillHead;
      assert refills[0] == ring[oldHead].Abs();
      scRefillHead := RefillNext(scRefillHead);
      refills := refills[1..];
      assert prevSize == RefillSize() + 1;
      assert forall i :: 0 <= i < |refills| ==> refills[i] == old(refills)[i + 1];
    }

    /** Writing to a slot that has been popped and not refilled does not show. */
    method SetPopped(oldHead: nat, rTime: u64)
      requires RingOk() && RefillSize() < scRefillMax && oldHead < scRefillMax && RefillNext(oldHead) == scRefillHead
      modifies ring
      ensures RingOk() && ring[oldHead] == Slot(rTime, old(ring[oldHead].rAmount))
    {
      ring[oldHead] := Slot(rTime, ring[oldHead].rAmount);
    }

    method RefillAddTail(rTime: u64, rAmount: u64)
      requires RingOk() && RefillSize() < scRefillMax
      modifies this`scRefillTail, this`refills, ring
      ensures RingOk() && refills == old(refills) + [Refill(rTime as nat, rAmount as nat)]
    {
      var newTail := RefillNext(scRefillTail);
      scRefillTail := newTail;
      ring[scRefillTail] := Slot(rTime, rAmount);
      refills := refills + [Refill(rTime as nat, rAmount as nat)];
    }

    method SetHead(rTime: u64, rAmount: u64)
      requires RingOk()
      modifies this`refills, ring
      ensures RingOk() && refills == old(refills)[0 := Refill(rTime as nat, rAmount as nat)]
    {
      ring[scRefillHead] := Slot(rTime, rAmount);
      refills := refills[0 := Refill(rTime as nat, rAmount as nat)];
    }

    method SetTail(rTime: u64, rAmount: u64)
      requires RingOk()
      modifies this`refills, ring
      ensures RingOk() && refills == SetLast(old(refills), Refill(rTime as nat, rAmount as nat))
    {
      ring[scRefillTail] := Slot(rTime, rAmount);
      refills := SetLast(refills, Refill(rTime as nat, rAmount as nat));
    }

    lemma HeadAndTail()
      requires RingOk()
      ensures refills[0] == ring[scRefillHead].Abs() && Last(refills) == ring[scRefillTail].Abs()
      ensures scRefillHead == scRefillTail <==> |refills| == 1
    {
    }

    method RefillSum() returns (sum: u64)
      requires RingOk() && Sum(refills) <= UINT64_MAX
      ensures sum as nat == Sum(refills)
    {
      HeadAndTail();
      sum := ring[scRefillHead].rAmount;
      var current := scRefillHead;
      ghost var rs, n := refills, 1;
      SumPrefix(rs, 1);
      while current != scRefillTail
        invariant 1 <= n <= RefillSize() && current == Wrap(scRefillHead + (n - 1), scRefillMax)
        invariant sum as nat == Sum(rs[..n])
        decreases RefillSize() - n
      {
        current := RefillNext(current);
        SumPrefix(rs, n + 1);
        assert ring[current].Abs() == rs[n];
        sum := sum + ring[current].rAmount;
        n := n + 1;
      }
      assert rs[..n] == rs;
    }

    // ----- schedule_used and refill_budget_check -----

    method ScheduleUsed(rTime: u64, rAmount: u64)
      requires RingOk() && Last(refills).End() + rAmount as nat <= UINT64_MAX
      modifies this`scRefillTail, this`refills, ring
      ensures RingOk()
      ensures refills == RefillList.ScheduleUsed(old(refills), scRefillMax, rTime as nat, rAmount as nat)
    {
      HeadAndTail();
      var tail := ring[scRefillTail];
      if tail.rTime + tail.rAmount >= rTime {
        SetTail(tail.rTime, tail.rAmount + rAmount);
      } else if RefillSize() != scRefillMax {
        RefillAddTail(rTime, rAmount);
      } else {
        SetTail(rTime - tail.rAmount, tail.rAmount + rAmount);
      }
    }

    /** The first loop of `refill_budget_check`. */
    method UseUpHeads(usage: u64, ghost bound: nat) returns (left: u64)
      requires RingOk() && Shape(refills, scRefillMax, budget, bound) && budget <= cfg.maxPeriod
      requires cfg.maxRelease + scPeriod as nat <= bound && bound + cfg.maxPeriod <= UINT64_MAX
      modifies this`scRefillHead, this`scRefillTail, this`refills, ring
      ensures RingOk()
      ensures (refills, left as nat) == ChargeHeads(cfg, old(refills), scRefillMax, scPeriod as nat, usage as nat)
    {
      hide ChargeHead, Ordered, TimesAtMost, Sum;
      left := usage;
      ghost var result := ChargeHeads(cfg, refills, scRefillMax, scPeriod as nat, usage as nat);
      HeadAndTail();
      while ring[scRefillHead].rAmount <= left && ring[scRefillHead].rTime as nat < cfg.maxRelease
        invariant RingOk() && refills[0] == ring[scRefillHead].Abs()
        invariant Shape(refills, scRefillMax, budget, bound)
        invariant ChargeHeads(cfg, refills, scRefillMax, scPeriod as nat, left as nat) == result
        decreases left
      {
        ChargeHeadKeeps(refills, scRefillMax, scPeriod as nat, budget, bound);
        ChargeHeadsTurn(cfg, refills, scRefillMax, scPeriod as nat, left as nat);
        left := left - ring[scRefillHead].rAmount;
        UseUpHead(bound);
        HeadAndTail();
      }
    }

    /** One turn of that loop, after the usage has been reduced. */
    method UseUpHead(ghost bound: nat)
      requires RingOk() && Shape(refills, scRefillMax, budget, bound) && refills[0].time + scPeriod as nat <= bound
      requires budget <= cfg.maxPeriod && bound + cfg.maxPeriod <= UINT64_MAX
      modifies this`scRefillHead, this`scRefillTail, this`refills, ring
      ensures RingOk() && refills == ChargeHead(old(refills), scRefillMax, scPeriod as nat)
    {
      HeadAndTail();
      ghost var rs := refills;
      if scRefillHead == scRefillTail {
        SetHead(ring[scRefillHead].rTime + scPeriod, ring[scRefillHead].rAmount);
        assert refills == ChargeHead(rs, scRefillMax, scPeriod as nat);
      } else {
        var oldHead := RefillPopHead();
        SetPopped(oldHead, ring[oldHead].rTime + scPeriod);
        TailRoom(rs, budget, bound);
        ScheduleUsed(ring[oldHead].rTime, ring[oldHead].rAmount);
      }
    }

    /** `refill_budget_check`. */
    method RefillBudgetCheck(usage: u64)
      requires Valid() && !IsRoundRobin()
      modifies this`scRefillHead, this`scRefillTail, this`refills, ring
      ensures Valid()
      ensures Abs() == old(Abs()).(refills := BudgetCheck(cfg, old(refills), scRefillMax, scPeriod as nat, usage as nat))
    {
      ghost var rs := refills;
      ghost var bound := Later(rs[0].time, cfg.maxRelease + cfg.wcet) + cfg.maxPeriod;
      var left := UseUpHeads(usage, bound);
      ChargeHeadsKeeps(cfg, rs, scRefillMax, scPeriod as nat, usage as nat, budget, bound);
      HeadAndTail();
      if left > 0 && ring[scRefillHead].rTime as nat < cfg.maxRelease {
        assert ring[scRefillHead].rAmount > left;
        UseUpPart(left, bound);
      }
      assert refills == Charge(cfg, rs, scRefillMax, scPeriod as nat, usage as nat);
      ChargeKeeps(cfg, rs, scRefillMax, scPeriod as nat, usage as nat, budget, bound);
      MergeSmallHeads(bound);
      BudgetCheckWellFormed(cfg, old(Abs()), budget, usage as nat);
    }

    method UseUpPart(usage: u64, ghost bound: nat)
      requires RingOk() && Shape(refills, scRefillMax, budget, bound) && refills[0].time + scPeriod as nat <= bound
      requires budget <= scPeriod as nat && budget <= cfg.maxPeriod && bound + cfg.maxPeriod <= UINT64_MAX
      requires 0 < usage as nat < refills[0].amount
      modifies this`scRefillTail, this`refills, ring
      ensures RingOk() && refills == ChargePart(old(refills), scRefillMax, scPeriod as nat, usage as nat)
    {
      HeadAndTail();
      ghost var rs := refills;
      SumMember(rs, 0);
      TailRoom(rs, budget, bound);
      var head := ring[scRefillHead];
      var newTime := head.rTime + scPeriod;
      SetHead(head.rTime + usage, head.rAmount - usage);
      ScheduleUsed(newTime, usage);
    }

    /** The last loop of `refill_budget_check`; its pop never meets a single refill. */
    method MergeSmallHeads(ghost bound: nat)
      requires RingOk() && Shape(refills, scRefillMax, budget, bound)
      requires cfg.Valid() && cfg.minBudget <= budget <= cfg.maxPeriod && bound <= UINT64_MAX
      modifies this`scRefillHead, this`refills, ring
      ensures RingOk() && refills == MergeSmall(cfg, old(refills))
    {
      HeadAndTail();
      while (ring[scRefillHead].rAmount as nat) < cfg.minBudget
        invariant RingOk() && refills[0] == ring[scRefillHead].Abs()
        invariant Shape(refills, scRefillMax, budget, bound)
        invariant MergeSmall(cfg, refills) == MergeSmall(cfg, old(refills))
        decreases |refills|
      {
        MergeOnceKeeps(refills, scRefillMax, budget, bound, cfg.minBudget);
        MergeSmallHead(bound);
        HeadAndTail();
      }
    }

    method MergeSmallHead(ghost bound: nat)
      requires RingOk() && 1 < |refills| && refills[0].amount <= refills[1].time
      requires refills[0].amount + refills[1].amount <= UINT64_MAX
      modifies this`scRefillHead, this`refills, ring
      ensures RingOk() && refills == MergeOnce(old(refills))
    {
      ghost var rs := refills;
      HeadAndTail();
      var head := RefillPopHead();
      HeadAndTail();
      SetHead(ring[scRefillHead].rTime - ring[head].rAmount, ring[scRefillHead].rAmount + ring[head].rAmount);
      assert refills == MergeOnce(rs);
    }

    // ----- unblocking -----

    predicate RefillReady(now: u64)
      requires RingOk() && now as nat + cfg.wcet <= UINT64_MAX
      reads this, ring
    {
      ring[scRefillHead].rTime as nat <= now as nat + cfg.wcet
    }

    function RefillCapacity(usage: u64): u64
      requires RingOk()
      reads this, ring
    {
      if usage > ring[scRefillHead].rAmount then 0 else ring[scRefillHead].rAmount - usage
    }

    predicate RefillSufficient(usage: u64)
      requires RingOk()
      reads this, ring
    {
      RefillCapacity(usage) as nat >= cfg.minBudget
    }

    lemma ReadyAndSufficient(now: u64, usage: u64)
      requires cfg.Valid() && RingOk() && now as nat < cfg.maxRelease
      ensures now as nat + cfg.wcet <= UINT64_MAX
      ensures RefillReady(now) == Ready(cfg, refills, now as nat)
      ensures RefillSufficient(usage) == Sufficient(cfg, refills, usage as nat)
    {
      HeadAndTail();
    }

    method RefillHeadOverlapping() returns (b: bool)
      requires RingOk() && refills[0].End() <= UINT64_MAX
      ensures b == (1 < |refills| && refills[1].time <= refills[0].End())
    {
      HeadAndTail();
      if scRefillHead != scRefillTail {
        var tail := ring[scRefillHead].rTime + ring[scRefillHead].rAmount;
        assert Wrap(scRefillHead + 1, scRefillMax) == RefillNext(scRefillHead);
        b := ring[RefillNext(scRefillHead)].rTime <= tail;
      } else {
        b := false;
      }
    }

    /** `refill_unblock_check`; `reprogram` is its update of `ksReprogram`. */
    method RefillUnblockCheck(now: u64) returns (reprogram: bool)
      requires Valid() && now as nat < cfg.maxRelease
      modifies this`scRefillHead, this`refills, ring
      ensures Valid() && Abs() == Unblocked(cfg, old(Abs()), now as nat)
      ensures reprogram == (!IsRoundRobin() && Ready(cfg, old(refills), now as nat))
    {
      reprogram := false;
      ghost var before := Abs();
      UnblockedKeeps(cfg, before, budget, now as nat);
      if IsRoundRobin() { return; }
      ReadyAndSufficient(now, 0);
      if RefillReady(now) {
        SetHead(now, ring[scRefillHead].rAmount);
        reprogram := true;
        assert refills[1..] == before.refills[1..];
        AbsorbHeads(cfg.maxRelease + cfg.wcet + cfg.maxPeriod);
        ReadyAndSufficient(now, 0);
        assert RefillSufficient(0);
      }
    }

    method AbsorbHeads(ghost bound: nat)
      requires RingOk() && |refills| <= scRefillMax && Sum(refills) == budget && Positive(refills)
      requires TimesAtMost(refills, bound) && Ordered(refills[1..]) && bound + budget <= UINT64_MAX
      modifies this`scRefillHead, this`refills, ring
      ensures RingOk() && refills == AbsorbOverlap(old(refills))
    {
      SumMember(refills, 0);
      var overlapping := RefillHeadOverlapping();
      while overlapping
        invariant RingOk() && Sum(refills) == budget && Positive(refills)
        invariant TimesAtMost(refills, bound) && Ordered(refills[1..])
        invariant overlapping == (1 < |refills| && refills[1].time <= refills[0].End())
        invariant AbsorbOverlap(refills) == AbsorbOverlap(old(refills))
        decreases |refills|
      {
        AbsorbHead(bound);
        SumMember(refills, 0);
        overlapping := RefillHeadOverlapping();
      }
    }

    method AbsorbHead(ghost bound: nat)
      requires RingOk() && 1 < |refills| && Sum(refills) == budget && Positive(refills)
      requires TimesAtMost(refills, bound) && Ordered(refills[1..]) && bound + budget <= UINT64_MAX
      modifies this`scRefillHead, this`refills, ring
      ensures RingOk() && |refills| < |old(refills)| && Sum(refills) == budget && Positive(refills)
      ensures TimesAtMost(refills, bound) && Ordered(refills[1..])
      ensures refills == [Refill(old(refills)[0].time, old(refills)[1].amount + old(refills)[0].amount)] + old(refills)[2..]
    {
      HeadAndTail();
      ghost var rs := refills;
      SumMember(rs[1..], 0);
      var oldHead := RefillPopHead();
      HeadAndTail();
      SetHead(ring[oldHead].rTime, ring[scRefillHead].rAmount + ring[oldHead].rAmount);
      assert refills[1..] == rs[1..][1..] == rs[2..];
    }

    // ----- configuring -----

    method MaybeAddEmptyTail()
      requires RingOk() && 1 == RefillSize() < scRefillMax
      modifies this`scRefillTail, this`refills, ring
      ensures RingOk()
      ensures refills == old(refills) + (if IsRoundRobin() then [Refill(old(refills)[0].time, 0)] else [])
    {
      HeadAndTail();
      if IsRoundRobin() {
        RefillAddTail(ring[scRefillHead].rTime, 0);
      }
    }

    /** `refill_new`, with the bounds its callers check. */
    method RefillNew(maxRefills: nat, newBudget: u64, period: u64, now: u64)
      requires cfg.Valid() && now as nat < cfg.maxRelease && MIN_REFILLS <= maxRefills <= ring.Length
      requires cfg.minBudget <= newBudget as nat <= cfg.maxPeriod
      requires period == 0 || newBudget as nat <= period as nat <= cfg.maxPeriod
      modifies this`scPeriod, this`scRefillHead, this`scRefillTail, this`scRefillMax, this`budget, this`refills, ring
      ensures Valid() && budget == newBudget as nat
      ensures Abs() == Fresh(budget, period as nat, maxRefills, now as nat)
    {
      scPeriod := period;
      scRefillHead := 0;
      scRefillTail := 0;
      scRefillMax := maxRefills;
      refills := [ring[0].Abs()];
      SetHead(now, newBudget);
      assert refills == [Refill(now as nat, newBudget as nat)];
      MaybeAddEmptyTail();
      budget := newBudget as nat;
      FreshKeeps(cfg, budget, period as nat, maxRefills, now as nat);
    }

    /** `refill_update`, with the bounds its caller checks. */
    method RefillUpdate(newPeriod: u64, newBudget: u64, newMaxRefills: nat, now: u64)
      requires Valid() && now as nat < cfg.maxRelease && MIN_REFILLS <= newMaxRefills <= ring.Length
      requires cfg.minBudget <= newBudget as nat <= cfg.maxPeriod
      requires newPeriod == 0 || newBudget as nat <= newPeriod as nat <= cfg.maxPeriod
      modifies this`scPeriod, this`scRefillHead, this`scRefillTail, this`scRefillMax, this`budget, this`refills, ring
      ensures Valid() && budget == newBudget as nat
      ensures Abs() == Reconfigured(cfg, old(Abs()), budget, newPeriod as nat, newMaxRefills, now as nat)
    {
      ghost var before := Abs();
      TruncateToHead(newMaxRefills);
      scPeriod := newPeriod;
      ReadyAndSufficient(now, 0);
      HeadAndTail();
      if RefillReady(now) {
        SetHead(now, ring[scRefillHead].rAmount);
      }
      ScheduleRest(newBudget);
      ReconfiguredKeeps(cfg, before, budget, newBudget as nat, newPeriod as nat, newMaxRefills, now as nat);
      budget := newBudget as nat;
    }

    /** Moves the head to index 0 and makes it the only refill. */
    method TruncateToHead(newMaxRefills: nat)
      requires RingOk() && 0 < newMaxRefills <= ring.Length
      modifies this`scRefillHead, this`scRefillTail, this`scRefillMax, this`refills, ring
      ensures RingOk() && refills == [old(refills)[0]] && scRefillMax == newMaxRefills
    {
      HeadAndTail();
      ring[0] := ring[scRefillHead];
      scRefillHead := 0;
      scRefillTail := scRefillHead;
      scRefillMax := newMaxRefills;
      refills := [ring[0].Abs()];
    }

    /** Trims a single refill to the new budget, or schedules what is missing one period later. */
    method ScheduleRest(newBudget: u64)
      requires RingOk() && |refills| == 1 < scRefillMax && refills[0].time + scPeriod as nat <= UINT64_MAX
      modifies this`scRefillTail, this`refills, ring
      ensures RingOk()
      ensures refills == Rebudget(old(refills)[0], scPeriod as nat, newBudget as nat)
    {
      HeadAndTail();
      ghost var head := refills[0];
      if ring[scRefillHead].rAmount >= newBudget {
        SetHead(ring[scRefillHead].rTime, newBudget);
        assert refills == [Refill(head.time, newBudget as nat)];
        MaybeAddEmptyTail();
      } else {
        assert refills == [head];
        RefillAddTail(ring[scRefillHead].rTime + scPeriod, newBudget - ring[scRefillHead].rAmount);
      }
    }

    // ----- charging, as the scheduler does it -----

    method SetHeadAndTail(head: u64, tail: u64)
      requires RingOk() && |refills| == 2
      modifies this`refills, ring
      ensures RingOk()
      ensures refills == [Refill(old(refills)[0].time, head as nat), Refill(old(refills)[1].time, tail as nat)]
    {
      HeadAndTail();
      SetHead(ring[scRefillHead].rTime, head);
      HeadAndTail();
      SetTail(ring[scRefillTail].rTime, tail);
    }

    /** `charge_budget`, for the current context. */
    method ChargeBudget(consumed: u64)
      requires Valid() && scConsumed as nat + consumed as nat <= UINT64_MAX
      modifies this`scRefillHead, this`scRefillTail, this`scConsumed, this`refills, ring
      ensures Valid() && Abs() == ChargedBudget(cfg, old(Abs()), consumed as nat)
      ensures scConsumed == old(scConsumed) + consumed
    {
      if IsRoundRobin() {
        ChargeRoundRobin();
      } else {
        RefillBudgetCheck(consumed);
      }
      HeadAndTail();
      assert ring[scRefillHead].rAmount as nat >= cfg.minBudget;
      scConsumed := scConsumed + consumed;
    }

    method ChargeRoundRobin()
      requires Valid() && IsRoundRobin()
      modifies this`refills, ring
      ensures Valid() && Abs() == ChargedBudget(cfg, old(Abs()), 0)
    {
      HeadAndTail();
      ChargedBudgetKeeps(cfg, Abs(), budget, 0);
      assert RefillSize() == MIN_REFILLS;
      RoundRobinSum(refills);
      SetHeadAndTail(ring[scRefillHead].rAmount + ring[scRefillTail].rAmount, 0);
    }

    /** `commit_time`, for the current context; the caller has checked the budget. */
    method CommitTime(consumed: u64)
      requires Valid() && Sufficient(cfg, refills, consumed as nat) && scConsumed as nat + consumed as nat <= UINT64_MAX
      modifies this`scRefillHead, this`scRefillTail, this`scConsumed, this`refills, ring
      ensures Valid() && Abs() == Committed(cfg, old(Abs()), consumed as nat)
      ensures scConsumed == old(scConsumed) + consumed
    {
      if consumed > 0 {
        if IsRoundRobin() {
          CommitRoundRobin(consumed);
        } else {
          RefillBudgetCheck(consumed);
        }
      }
      scConsumed := scConsumed + consumed;
    }

    method CommitRoundRobin(consumed: u64)
      requires Valid() && IsRoundRobin() && 0 < consumed && Sufficient(cfg, refills, consumed as nat)
      modifies this`refills, ring
      ensures Valid() && Abs() == Committed(cfg, old(Abs()), consumed as nat)
    {
      HeadAndTail();
      CommittedKeeps(cfg, Abs(), budget, consumed as nat);
      assert RefillSize() == MIN_REFILLS;
      RoundRobinSum(refills);
      SetHeadAndTail(ring[scRefillHead].rAmount - consumed, ring[scRefillTail].rAmount + consumed);
    }
  }

  lemma {:induction false} RoundRobinSum(rs: Refills)
    requires |rs| == 2
    ensures Sum(rs) == rs[0].amount + rs[1].amount
  {
    assert rs == [rs[0], rs[1]];
    SumPair(rs[0], rs[1]);
  }

  lemma {:induction false} SumPrefix(rs: seq<Refill>, n: nat)
    requires 0 < n <= |rs|
    ensures Sum(rs[..n]) == Sum(rs[..n - 1]) + rs[n - 1].amount <= Sum(rs)
  {
    SumAppend(rs[..n], rs[n..]);
    assert rs == rs[..n] + rs[n..];
    SumSplitLast(rs[..n]);
    assert rs[..n][..n - 1] == rs[..n - 1];
  }

  /** There is always room to give the head back at the tail. */
  lemma {:induction false} TailRoom(rs: Refills, budget: nat, bound: nat)
    requires Sum(rs) == budget && TimesAtMost(rs, bound)
    ensures Last(rs).End() <= bound + budget
    ensures 1 < |rs| ==> Last(rs).End() + rs[0].amount <= bound + budget
  {
    SumMember(rs, |rs| - 1);
    if 1 < |rs| { SumMember(rs[1..], |rs| - 2); }
  }
}
