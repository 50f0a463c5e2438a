/** What the refill operations do, tick by tick.  RefillSupply.dfy says that no tick comes early;
    here every tick has its exact place: a used one comes back one period later and no other
    moves, except where the ring is full, a small head is merged, or a head is moved to the
    current time. */
module RefillExact {
  import opened RefillList
  import opened RefillSupply

  function Max(a: int, b: int): int { if a <= b then b else a }

  function Min(a: nat, b: nat): nat { if a <= b then a else b }

  // ----- giving back used time -----

  /** With room in the ring, or next to the tail, all old ticks stay where they are and those given
      back run from `time`, or from the end of the tail if that is later.  In a full ring only the
      ticks of the tail move: they end where those given back begin. */
  lemma {:induction false} ScheduleUsedExact(rs: Refills, max: nat, time: nat, amount: nat)
    ensures var r, last := Ticks(ScheduleUsed(rs, max, time, amount)), Last(rs);
      if |rs| < max || last.End() >= time then
        r == Ticks(rs) + seq(amount, i => Max(time, last.End()) + i)
      else
        r == Ticks(rs[..|rs| - 1]) + seq(last.amount, i => time - last.amount + i) + seq(amount, i => time + i)
  {
    var r := ScheduleUsed(rs, max, time, amount);
    TicksSplitLast(rs);
    TicksSplitLast(r);
    if |r| == |rs| {
      assert r[..|r| - 1] == rs[..|rs| - 1];
    } else {
      assert r[..|r| - 1] == rs;
    }
  }

  /** `after` is `before` with its first `usage` ticks used, each of them back after one period. */
  ghost predicate Follows(before: seq<int>, after: seq<int>, usage: nat, period: nat) {
    && 0 < |before| == |after|
    && forall i :: 0 <= i < |after| ==> after[i] == Stream(before, period, usage + i)
  }

  lemma {:induction false} StreamFollows(before: seq<int>, after: seq<int>, usage: nat, period: nat, k: nat)
    requires Follows(before, after, usage, period)
    ensures Stream(after, period, k) == Stream(before, period, usage + k)
    decreases k
  {
    if k >= |after| { StreamFollows(before, after, usage, period, k - |after|); }
  }

  lemma {:induction false} FollowsCompose(a: seq<int>, b: seq<int>, c: seq<int>, first: nat, second: nat, period: nat)
    requires Follows(a, b, first, period) && Follows(b, c, second, period)
    ensures Follows(a, c, first + second, period)
  {
    forall i | 0 <= i < |c| ensures c[i] == Stream(a, period, first + second + i) {
      StreamFollows(a, b, first, period, second + i);
    }
  }

  lemma {:induction false} RotateFollows(t: seq<int>, r: seq<int>, used: nat, period: nat)
    requires 0 < |t| == |r| && used <= |t|
    requires forall i :: 0 <= i < |t| - used ==> r[i] == t[used + i]
    requires forall i :: 0 <= i < used ==> r[|t| - used + i] == t[i] + period
    ensures Follows(t, r, used, period)
  {
    forall i | 0 <= i < |r| ensures r[i] == Stream(t, period, used + i) {
      if used + i >= |t| {
        var k := used + i - |t|;
        assert r[|t| - used + k] == t[k] + period;
        assert Stream(t, period, used + i) == Stream(t, period, k) + period;
      }
    }
  }

  // ----- charging -----

  /** All refills end within one period of the head. */
  predicate Compact(rs: Refills, period: nat) { Last(rs).End() <= rs[0].time + period }

  lemma {:induction false} ChargeHeadExact(rs: Refills, max: nat, period: nat)
    requires 0 < rs[0].amount && |rs| <= max && Ordered(rs) && Compact(rs, period)
    ensures Follows(Ticks(rs), Ticks(ChargeHead(rs, max, period)), rs[0].amount, period)
    ensures Compact(ChargeHead(rs, max, period), period) && |ChargeHead(rs, max, period)| <= |rs|
  {
    var t, r := Ticks(rs), Ticks(ChargeHead(rs, max, period));
    assert t == TicksOf(rs[0]) + Ticks(rs[1..]);
    if |rs| == 1 {
      TicksSingle(Refill(rs[0].time + period, rs[0].amount));
    } else {
      ScheduleUsedExact(rs[1..], max, rs[0].time + period, rs[0].amount);
    }
    RotateFollows(t, r, rs[0].amount, period);
  }

  lemma {:induction false} ChargePartExact(rs: Refills, max: nat, period: nat, usage: nat)
    requires usage < rs[0].amount && |rs| < max && Compact(rs, period)
    ensures Follows(Ticks(rs), Ticks(ChargePart(rs, max, period, usage)), usage, period)
  {
    var cut := rs[0 := Refill(rs[0].time + usage, rs[0].amount - usage)];
    assert cut[1..] == rs[1..];
    var t := Ticks(rs);
    assert t == TicksOf(rs[0]) + Ticks(rs[1..]);
    assert Ticks(cut) == t[usage..];
    ScheduleUsedExact(cut, max, rs[0].time + period, usage);
    RotateFollows(t, Ticks(ChargePart(rs, max, period, usage)), usage, period);
  }

  lemma {:induction false} ChargePartCompact(rs: Refills, max: nat, period: nat, usage: nat)
    requires usage < rs[0].amount && 1 < max && Compact(rs, period)
    ensures Compact(ChargePart(rs, max, period, usage), period)
  {
  }

  lemma {:induction false} ChargeHeadsExact(cfg: Timing, rs: Refills, max: nat, period: nat, usage: nat, budget: nat, bound: nat)
    requires Shape(rs, max, budget, bound) && 0 < budget && cfg.maxRelease + period <= bound && Compact(rs, period)
    ensures var (r, left) := ChargeHeads(cfg, rs, max, period, usage);
      left <= usage && Follows(Ticks(rs), Ticks(r), usage - left, period) && Compact(r, period) && |r| <= |rs|
    decreases usage
  {
    hide *;
    ShapeFacts(rs, max, budget, bound);
    NothingFollows(rs, period, budget);
    ChargeHeadsTurn(cfg, rs, max, period, usage);
    if rs[0].amount <= usage && rs[0].time < cfg.maxRelease {
      var next, rest := ChargeHead(rs, max, period), usage - rs[0].amount;
      ChargeHeadExact(rs, max, period);
      ChargeHeadKeeps(rs, max, period, budget, bound);
      ChargeHeadsExact(cfg, next, max, period, rest, budget, bound);
      var (r, left) := ChargeHeads(cfg, next, max, period, rest);
      FollowsCompose(Ticks(rs), Ticks(next), Ticks(r), rs[0].amount, rest - left, period);
    }
  }

  lemma {:induction false} ShapeFacts(rs: Refills, max: nat, budget: nat, bound: nat)
    requires Shape(rs, max, budget, bound)
    ensures 0 < rs[0].amount && |rs| <= max && Ordered(rs) && Sum(rs) == budget && rs[0].time <= bound
  {
  }

  lemma {:induction false} NothingFollows(rs: Refills, period: nat, budget: nat)
    requires Sum(rs) == budget > 0
    ensures Follows(Ticks(rs), Ticks(rs), 0, period)
  {
    TicksCount(rs);
  }

  /** Charging any usage, in a ring that is not full, gives every used tick back exactly one period
      later and moves no other; and the refills stay within one period in any case. */
  lemma {:induction false} ChargeExact(cfg: Timing, rs: Refills, max: nat, period: nat, usage: nat, budget: nat, bound: nat)
    requires Shape(rs, max, budget, bound) && 0 < budget && cfg.maxRelease + period <= bound && Compact(rs, period) && 1 < max
    ensures Compact(Charge(cfg, rs, max, period, usage), period)
    ensures |rs| < max ==> Follows(Ticks(rs), Ticks(Charge(cfg, rs, max, period, usage)), Charged(cfg, rs, max, period, usage), period)
  {
    hide *;
    ShapeFacts(rs, max, budget, bound);
    ChargeHeadsExact(cfg, rs, max, period, usage, budget, bound);
    var r, left := ChargeCases(cfg, rs, max, period, usage, budget, bound);
    if left < r[0].amount {
      ChargePartCompact(r, max, period, left);
      if |rs| < max {
        ChargePartExact(r, max, period, left);
        FollowsCompose(Ticks(rs), Ticks(r), Ticks(ChargePart(r, max, period, left)), usage - left, left, period);
      }
    }
  }

  // ----- merging small heads -----

  /** What merging the first refills up to `k` gives: one refill with all their time, which ends
      where the last of them did. */
  function MergedUpTo(rs: Refills, k: nat): Refills
    requires k < |rs| && Sum(rs[..k + 1]) <= rs[k].End()
  {
    [Refill(rs[k].End() - Sum(rs[..k + 1]), Sum(rs[..k + 1]))] + rs[k + 1..]
  }

  lemma {:induction false} SumUpTo(rs: seq<Refill>, k: nat)
    requires Ordered(rs) && k < |rs|
    ensures Sum(rs[..k + 1]) <= rs[k].End()
    ensures Sum(rs[..k + 1]) == Sum(rs[..k]) + rs[k].amount
    decreases k
  {
    assert rs[..k + 1] == rs[..k] + [rs[k]];
    SumAppend(rs[..k], [rs[k]]);
    SumSingle([rs[k]]);
    if k > 0 { SumUpTo(rs, k - 1); }
  }

  lemma {:induction false} MergeOnceSums(rs: Refills, j: nat)
    requires 1 < |rs| && rs[0].amount <= rs[1].time && j < |rs| - 1
    ensures Sum(MergeOnce(rs)[..j + 1]) == Sum(rs[..j + 2])
  {
    var m := MergeOnce(rs);
    assert m[..j + 1] == [m[0]] + m[1..][..j] && m[1..][..j] == rs[2..][..j];
    assert rs[..j + 2] == [rs[0], rs[1]] + rs[2..][..j];
    SumAppend([m[0]], rs[2..][..j]);
    SumAppend([rs[0], rs[1]], rs[2..][..j]);
    SumSingle([m[0]]);
    assert [rs[0], rs[1]][1..] == [rs[1]];
    SumSingle([rs[1]]);
  }

  lemma {:induction false} MergeOnceOrdered(rs: Refills)
    requires 1 < |rs| && rs[0].amount <= rs[1].time && Ordered(rs)
    ensures Ordered(MergeOnce(rs))
  {
    var m := MergeOnce(rs);
    forall i | 0 <= i < |m| - 1 ensures m[i].End() <= m[i + 1].time { assert m[i].End() == rs[i + 1].End() <= rs[i + 2].time; }
  }

  lemma MergedIs(rs: Refills, k: nat, end: nat, sum: nat, rest: seq<Refill>)
    requires k < |rs| && Sum(rs[..k + 1]) == sum <= end == rs[k].End() && rs[k + 1..] == rest
    ensures MergedUpTo(rs, k) == [Refill(end - sum, sum)] + rest
  {
    hide Sum;
  }

  lemma {:induction false} MergeOnceTail(rs: Refills, j: nat)
    requires 1 < |rs| && rs[0].amount <= rs[1].time && j < |rs| - 1
    ensures var m := MergeOnce(rs); |m| == |rs| - 1 && m[j].End() == rs[j + 1].End() && m[j + 1..] == rs[j + 2..]
  {
  }

  lemma {:induction false} MergedOnceMore(rs: Refills, j: nat)
    requires Ordered(rs) && 1 < |rs| && rs[0].amount <= rs[1].time && j < |MergeOnce(rs)| == |rs| - 1
    requires Sum(MergeOnce(rs)[..j + 1]) <= MergeOnce(rs)[j].End()
    ensures Sum(rs[..j + 2]) <= rs[j + 1].End() && MergedUpTo(MergeOnce(rs), j) == MergedUpTo(rs, j + 1)
    ensures Sum(MergeOnce(rs)[..j + 1]) == Sum(rs[..j + 2])
    ensures if j > 0 then Sum(MergeOnce(rs)[..j]) == Sum(rs[..j + 1]) else Sum(rs[..j + 1]) == rs[0].amount
  {
    hide *;
    var m, end, sum := MergeOnce(rs), rs[j + 1].End(), Sum(rs[..j + 2]);
    MergeOnceTail(rs, j);
    MergeOnceSums(rs, j);
    MergedIs(m, j, end, sum, rs[j + 2..]);
    MergedIs(rs, j + 1, end, sum, rs[j + 2..]);
    if j > 0 { MergeOnceSums(rs, j - 1); } else { SumSingle(rs[..1]); }
  }

  /** Merging stops at the first refill with which the head reaches the minimum budget, or at the
      last one; so a head that has it is left alone. */
  lemma {:induction false} MergeSmallExact(cfg: Timing, rs: Refills) returns (k: nat)
    requires Ordered(rs)
    ensures k < |rs| && Sum(rs[..k + 1]) <= rs[k].End() && MergeSmall(cfg, rs) == MergedUpTo(rs, k)
    ensures 0 < k ==> Sum(rs[..k]) < cfg.minBudget
    ensures k + 1 < |rs| ==> cfg.minBudget <= Sum(rs[..k + 1])
    decreases |rs|
  {
    SumUpTo(rs, 0);
    assert rs[..0] == [];
    if rs[0].amount < cfg.minBudget && 1 < |rs| {
      var m := MergeOnce(rs);
      MergeOnceOrdered(rs);
      var k' := MergeSmallExact(cfg, m);
      k := k' + 1;
      MergedOnceMore(rs, k');
    } else {
      k := 0;
      assert rs == [rs[0]] + rs[1..];
    }
  }

  /** The supply curve, exactly: after a charge within the budget that is charged in full, with room
      in the ring and a head left that is not too small, the supply at every instant is the old
      one with its earliest `usage` ticks one period later. */
  lemma {:induction false} ChargeSupplyExact(cfg: Timing, rs: Refills, max: nat, period: nat, usage: nat, budget: nat, bound: nat, x: int)
    requires Shape(rs, max, budget, bound) && Compact(rs, period) && |rs| < max && 1 < max
    requires 0 < budget <= period && cfg.maxRelease + period <= bound
    requires usage <= budget && Charged(cfg, rs, max, period, usage) == usage
    requires cfg.minBudget <= Charge(cfg, rs, max, period, usage)[0].amount
    ensures |Ticks(rs)| == budget
    ensures Supply(BudgetCheck(cfg, rs, max, period, usage), x) == Below(Ticks(rs)[usage..], x) + Below(Ticks(rs)[..usage], x - period)
  {
    TicksCount(rs);
    ChargeExact(cfg, rs, max, period, usage, budget, bound);
    var t, r := Ticks(rs), Ticks(Charge(cfg, rs, max, period, usage));
    assert MergeSmall(cfg, Charge(cfg, rs, max, period, usage)) == Charge(cfg, rs, max, period, usage);
    SupplyIsBelow(Charge(cfg, rs, max, period, usage), x);
    FollowsBelow(t, r, usage, period, x);
  }

  lemma {:induction false} FollowsBelow(t: seq<int>, r: seq<int>, usage: nat, period: nat, x: int)
    requires Follows(t, r, usage, period) && usage <= |t|
    ensures Below(r, x) == Below(t[usage..], x) + Below(t[..usage], x - period)
  {
    var m := |t| - usage;
    forall i | 0 <= i < m ensures r[i] == t[usage..][i] { assert r[i] == Stream(t, period, usage + i); }
    assert r[..m] == t[usage..];
    forall i | 0 <= i < usage ensures r[m..][i] == t[..usage][i] + period {
      assert r[m + i] == Stream(t, period, usage + (m + i)) == Stream(t, period, i) + period;
    }
    assert r == r[..m] + r[m..];
    BelowAppend(r[..m], r[m..], x);
    BelowShift(t[..usage], r[m..], period, x);
  }

  lemma {:induction false} BelowShift(a: seq<int>, b: seq<int>, shift: int, x: int)
    requires |a| == |b| && forall i :: 0 <= i < |a| ==> b[i] == a[i] + shift
    ensures Below(b, x) == Below(a, x - shift)
  {
    if a != [] { BelowShift(a[1..], b[1..], shift, x); }
  }

  // ----- the refills stay within one period -----

  lemma {:induction false} MergeSmallCompact(cfg: Timing, rs: Refills, period: nat)
    requires Ordered(rs) && Compact(rs, period)
    ensures Compact(MergeSmall(cfg, rs), period)
    decreases |rs|
  {
    if rs[0].amount < cfg.minBudget && 1 < |rs| {
      MergeOnceOrdered(rs);
      assert Last(MergeOnce(rs)).End() == Last(rs).End();
      MergeSmallCompact(cfg, MergeOnce(rs), period);
    }
  }

  lemma {:induction false} BudgetCheckCompact(cfg: Timing, rs: Refills, max: nat, period: nat, usage: nat, budget: nat, bound: nat)
    requires Shape(rs, max, budget, bound) && 0 < budget <= period && cfg.maxRelease + period <= bound && Compact(rs, period) && 1 < max
    ensures Compact(BudgetCheck(cfg, rs, max, period, usage), period)
  {
    ChargeExact(cfg, rs, max, period, usage, budget, bound);
    ChargeKeeps(cfg, rs, max, period, usage, budget, bound);
    MergeSmallCompact(cfg, Charge(cfg, rs, max, period, usage), period);
  }

  lemma {:induction false} AbsorbSum(rs: Refills)
    requires 1 < |rs|
    ensures var merged := [Refill(rs[0].time, rs[1].amount + rs[0].amount)] + rs[2..];
      Sum(merged) == Sum(rs) && (|rs| == 2 ==> merged[0].amount == Sum(rs))
  {
    var merged := [Refill(rs[0].time, rs[1].amount + rs[0].amount)] + rs[2..];
    assert merged[1..] == rs[1..][1..] == rs[2..];
    if |rs| == 2 { SumSingle(merged); }
  }

  lemma {:induction false} AbsorbOverlapCompact(rs: Refills, period: nat)
    requires Compact(rs, period) && Sum(rs) <= period
    ensures Compact(AbsorbOverlap(rs), period)
    decreases |rs|
  {
    if 1 < |rs| && rs[1].time <= rs[0].End() {
      var merged := [Refill(rs[0].time, rs[1].amount + rs[0].amount)] + rs[2..];
      AbsorbSum(rs);
      hide Sum;
      assert |rs| == 2 ==> Last(merged) == merged[0];
      AbsorbOverlapCompact(merged, period);
    }
  }

  lemma {:induction false} UnblockCompact(cfg: Timing, rs: Refills, now: nat, period: nat)
    requires Compact(rs, period) && Sum(rs) <= period && !(now < rs[0].time <= now + cfg.wcet)
    ensures Compact(Unblock(cfg, rs, now), period)
  {
    if Ready(cfg, rs, now) {
      var moved := rs[0 := Refill(now, rs[0].amount)];
      assert moved[1..] == rs[1..];
      SumMember(rs, 0);
      AbsorbOverlapCompact(moved, period);
    }
  }

  // ----- unblocking -----

  lemma {:induction false} TicksSpread(rs: seq<Refill>, i: nat)
    requires Ordered(rs) && i < |Ticks(rs)| && 0 < |rs|
    ensures Ticks(rs)[i] >= rs[0].time + i
  {
    if i >= rs[0].amount {
      assert Ticks(rs)[i] == Ticks(rs[1..])[i - rs[0].amount];
      assert rs[1..] != [];
      TicksSpread(rs[1..], i - rs[0].amount);
    }
  }

  lemma {:induction false} AbsorbOverlapExact(rs: Refills, i: nat)
    requires Ordered(rs[1..]) && i < |Ticks(rs)|
    ensures |Ticks(AbsorbOverlap(rs))| == |Ticks(rs)|
    ensures Ticks(AbsorbOverlap(rs))[i] == if i < rs[0].amount then rs[0].time + i else Max(rs[0].time + i, Ticks(rs)[i])
    decreases |rs|
  {
    AbsorbOverlapDefers(rs);
    assert Ticks(rs) == TicksOf(rs[0]) + Ticks(rs[1..]);
    if 1 < |rs| && rs[1].time <= rs[0].End() {
      var merged := [Refill(rs[0].time, rs[1].amount + rs[0].amount)] + rs[2..];
      assert merged[1..] == rs[1..][1..] == rs[2..];
      assert Ticks(rs) == TicksOf(rs[0]) + TicksOf(rs[1]) + Ticks(rs[2..]);
      AbsorbOverlapExact(merged, i);
    } else if i >= rs[0].amount {
      assert rs[1..] != [];
      TicksSpread(rs[1..], i - rs[0].amount);
    }
  }

  /** Unblocking a context that is ready moves the ticks of its head to the current time, one after
      the other, and every later tick only as far as it is in their way; one that is not ready is
      left alone. */
  lemma {:induction false} UnblockExact(cfg: Timing, rs: Refills, now: nat, i: nat)
    requires Ordered(rs) && i < |Ticks(rs)|
    ensures |Ticks(Unblock(cfg, rs, now))| == |Ticks(rs)|
    ensures Ticks(Unblock(cfg, rs, now))[i] ==
      if !Ready(cfg, rs, now) then Ticks(rs)[i]
      else if i < rs[0].amount then now + i
      else Max(now + i, Ticks(rs)[i])
  {
    if Ready(cfg, rs, now) {
      var moved := rs[0 := Refill(now, rs[0].amount)];
      assert moved[1..] == rs[1..];
      ShiftHeadTicks(rs, now);
      AbsorbOverlapExact(moved, i);
    }
  }

  /** And the head does not reach the next refill afterwards. */
  lemma {:induction false} UnblockSeparates(cfg: Timing, rs: Refills, now: nat)
    requires Ready(cfg, rs, now)
    ensures var r := Unblock(cfg, rs, now); 1 < |r| ==> r[0].End() < r[1].time
  {
    AbsorbOverlapSeparates(rs[0 := Refill(now, rs[0].amount)]);
  }

  lemma {:induction false} AbsorbOverlapSeparates(rs: Refills)
    ensures var r := AbsorbOverlap(rs); 1 < |r| ==> r[0].End() < r[1].time
    decreases |rs|
  {
    if 1 < |rs| && rs[1].time <= rs[0].End() {
      AbsorbOverlapSeparates([Refill(rs[0].time, rs[1].amount + rs[0].amount)] + rs[2..]);
    }
  }

  // ----- reconfiguring -----

  /** A context that is reconfigured keeps what is left in its head, up to the new budget, at its
      time or the current one; what is missing to the new budget comes one new period later. */
  lemma {:induction false} UpdateExact(cfg: Timing, rs: Refills, period: nat, budget: nat, now: nat)
    ensures var r, kept := Ticks(Update(cfg, rs, period, budget, now)), Min(rs[0].amount, budget);
      var head := if Ready(cfg, rs, now) then now else rs[0].time;
      r == seq(kept, i => head + i) + seq(budget - kept, i => head + period + i)
  {
    var r := Update(cfg, rs, period, budget, now);
    if |r| == 1 {
      TicksSingle(r[0]);
    } else {
      assert r[1..] == [r[1]];
      TicksSingle(r[1]);
    }
  }

  /** So up to one new period after the head no more is supplied than was left, and from then on
      the rest without a gap. */
  lemma {:induction false} UpdateSupply(cfg: Timing, rs: Refills, period: nat, budget: nat, now: nat, x: int)
    requires budget <= period
    ensures var supply, kept := Supply(Update(cfg, rs, period, budget, now), x), Min(rs[0].amount, budget);
      var head := if Ready(cfg, rs, now) then now else rs[0].time;
      && (x <= head + period ==> supply == Given(Refill(head, kept), x) <= kept)
      && (head + period <= x ==> supply == kept + Given(Refill(head + period, budget - kept), x))
  {
    var r := Update(cfg, rs, period, budget, now);
    if |r| == 1 {
      assert r[1..] == [];
      assert Supply(r[1..], x) == 0;
    } else {
      assert r[1..] == [r[1]] && r[1..][1..] == [];
      assert Supply(r[1..][1..], x) == 0;
      assert Supply(r[1..], x) == Given(r[1], x);
    }
  }
}
