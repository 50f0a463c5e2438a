/** Charging never returns budget early.  A refill list is unfolded into its ticks;
    a charge of `usage` must give every used tick back no earlier than one period
    later and must not advance any other tick. */
module RefillSupply {
  import opened RefillList

  function TicksOf(r: Refill): (t: seq<int>)
    ensures |t| == r.amount && forall i :: 0 <= i < |t| ==> t[i] == r.time + i
  {
    seq(r.amount, i => r.time + i)
  }

  /** The instants at which a refill list supplies one tick of budget each. */
  function Ticks(rs: seq<Refill>): seq<int> {
    if rs == [] then [] else TicksOf(rs[0]) + Ticks(rs[1..])
  }

  /** The part of a refill that has been supplied by time `x`. */
  function Given(r: Refill, x: int): nat {
    if x <= r.time then 0 else if r.End() <= x then r.amount else x - r.time
  }

  /** The budget a refill list has supplied by time `x` if nothing is charged. */
  function Supply(rs: seq<Refill>, x: int): nat {
    if rs == [] then 0 else Given(rs[0], x) + Supply(rs[1..], x)
  }

  /** How many of the ticks lie before `x`. */
  function Below(ticks: seq<int>, x: int): nat {
    if ticks == [] then 0 else (if ticks[0] < x then 1 else 0) + Below(ticks[1..], x)
  }

  /** `ticks` repeated for ever, each lap one `period` later than the one before. */
  ghost function Stream(ticks: seq<int>, period: nat, k: nat): int
    requires 0 < |ticks|
    decreases k
  {
    if k < |ticks| then ticks[k] else Stream(ticks, period, k - |ticks|) + period
  }

  /** `after` supplies no tick earlier than `before` does once its first `usage` ticks
      have been used, a used tick coming back one period later. */
  ghost predicate Lags(before: seq<int>, after: seq<int>, usage: nat, period: nat) {
    && 0 < |before| == |after|
    && forall i :: 0 <= i < |after| ==> after[i] >= Stream(before, period, usage + i)
  }

  /** The same number of ticks, none of them earlier. */
  ghost predicate Defers(before: seq<int>, after: seq<int>) {
    |before| == |after| && forall i :: 0 <= i < |before| ==> after[i] >= before[i]
  }

  /** `after` is `before` with `amount` ticks appended from `time` on, possibly deferred. */
  ghost predicate Appends(before: seq<int>, after: seq<int>, time: int, amount: nat) {
    && |after| == |before| + amount
    && (forall i :: 0 <= i < |before| ==> after[i] >= before[i])
    && (forall i :: |before| <= i < |after| ==> after[i] >= time + (i - |before|))
  }

  // ----- ticks -----

  lemma {:induction false} TicksAppend(a: seq<Refill>, b: seq<Refill>)
    ensures Ticks(a + b) == Ticks(a) + Ticks(b)
  {
    if a == [] {
      assert a + b == b;
    } else {
      assert (a + b)[1..] == a[1..] + b;
      TicksAppend(a[1..], b);
    }
  }

  lemma {:induction false} TicksCount(rs: seq<Refill>)
    ensures |Ticks(rs)| == Sum(rs)
  {
    if rs != [] { TicksCount(rs[1..]); }
  }

  lemma TicksSingle(r: Refill)
    ensures Ticks([r]) == TicksOf(r)
  {
    assert [r][1..] == [];
  }

  lemma {:induction false} TicksSplitLast(rs: Refills)
    ensures Ticks(rs) == Ticks(rs[..|rs| - 1]) + TicksOf(Last(rs))
  {
    assert rs == rs[..|rs| - 1] + [Last(rs)];
    TicksAppend(rs[..|rs| - 1], [Last(rs)]);
    TicksSingle(Last(rs));
  }

  /** Giving budget back appends its ticks, not before their time, and advances no other. */
  lemma {:induction false} ScheduleUsedTicks(rs: Refills, max: nat, time: nat, amount: nat)
    ensures Appends(Ticks(rs), Ticks(ScheduleUsed(rs, max, time, amount)), time, amount)
  {
    var r := ScheduleUsed(rs, max, time, amount);
    TicksSplitLast(rs);
    TicksSplitLast(r);
    if |r| == |rs| {
      assert r[..|r| - 1] == rs[..|rs| - 1];
    } else {
      assert r[..|r| - 1] == rs;
    }
  }

  // ----- lag -----

  lemma {:induction false} StreamLags(before: seq<int>, after: seq<int>, usage: nat, period: nat, k: nat)
    requires Lags(before, after, usage, period)
    ensures Stream(after, period, k) >= Stream(before, period, usage + k)
    decreases k
  {
    if k >= |after| { StreamLags(before, after, usage, period, k - |after|); }
  }

  lemma LagsCompose(a: seq<int>, b: seq<int>, c: seq<int>, first: nat, second: nat, period: nat)
    requires Lags(a, b, first, period) && Lags(b, c, second, period)
    ensures Lags(a, c, first + second, period)
  {
    forall i | 0 <= i < |c| ensures c[i] >= Stream(a, period, first + second + i) {
      StreamLags(a, b, first, period, second + i);
    }
  }

  /** Ticks taken from the front and appended one period later lag by the period. */
  lemma RotateLags(t: seq<int>, r: seq<int>, used: nat, period: nat)
    requires 0 < |t| && used <= |t|
    requires forall i :: 0 <= i < used ==> t[i] == t[0] + i
    requires Appends(t[used..], r, t[0] + period, used)
    ensures Lags(t, r, used, period)
  {
    forall i | 0 <= i < |r| ensures r[i] >= Stream(t, period, used + i) {
      if used + i < |t| {
        assert t[used..][i] == t[used + i];
      } else {
        assert Stream(t, period, used + i) == Stream(t, period, used + i - |t|) + period;
      }
    }
  }

  lemma DeferLags(a: seq<int>, b: seq<int>, c: seq<int>, usage: nat, period: nat)
    requires Lags(a, b, usage, period) && Defers(b, c)
    ensures Lags(a, c, usage, period)
  {
  }

  lemma {:induction false} ChargeHeadLags(rs: Refills, max: nat, period: nat)
    requires 0 < rs[0].amount
    ensures Lags(Ticks(rs), Ticks(ChargeHead(rs, max, period)), rs[0].amount, period)
  {
    var t, r := Ticks(rs), Ticks(ChargeHead(rs, max, period));
    assert t == TicksOf(rs[0]) + Ticks(rs[1..]);
    assert t[rs[0].amount..] == Ticks(rs[1..]);
    if |rs| == 1 {
      TicksSingle(Refill(rs[0].time + period, rs[0].amount));
    } else {
      ScheduleUsedTicks(rs[1..], max, rs[0].time + period, rs[0].amount);
    }
    RotateLags(t, r, rs[0].amount, period);
  }

  lemma {:induction false} ChargePartLags(rs: Refills, max: nat, period: nat, usage: nat)
    requires usage < rs[0].amount
    ensures Lags(Ticks(rs), Ticks(ChargePart(rs, max, period, usage)), usage, period)
  {
    var cut := rs[0 := Refill(rs[0].time + usage, rs[0].amount - usage)];
    assert cut[1..] == rs[1..];
    var t := Ticks(rs);
    assert t == TicksOf(rs[0]) + Ticks(rs[1..]);
    assert Ticks(cut) == t[usage..];
    ScheduleUsedTicks(cut, max, rs[0].time + period, usage);
    RotateLags(t, Ticks(ChargePart(rs, max, period, usage)), usage, period);
  }

  lemma {:induction false} ChargeHeadsLag(cfg: Timing, rs: Refills, max: nat, period: nat, usage: nat)
    requires 0 < |Ticks(rs)|
    ensures var (r, left) := ChargeHeads(cfg, rs, max, period, usage);
            left <= usage && Lags(Ticks(rs), Ticks(r), usage - left, period)
    decreases usage
  {
    if rs[0].amount <= usage && rs[0].time < cfg.maxRelease && 0 < rs[0].amount {
      var next, rest := ChargeHead(rs, max, period), usage - rs[0].amount;
      ChargeHeadLags(rs, max, period);
      ChargeHeadsLag(cfg, next, max, period, rest);
      var (r, left) := ChargeHeads(cfg, next, max, period, rest);
      LagsCompose(Ticks(rs), Ticks(next), Ticks(r), rs[0].amount, rest - left, period);
    }
  }

  /** Merging a small head into its successor only defers ticks. */
  lemma {:induction false} MergeSmallDefers(cfg: Timing, rs: Refills)
    requires Ordered(rs)
    ensures Defers(Ticks(rs), Ticks(MergeSmall(cfg, rs)))
    decreases |rs|
  {
    if rs[0].amount < cfg.minBudget && 1 < |rs| {
      var merged := MergeOnce(rs);
      assert merged[1..] == rs[1..][1..] == rs[2..];
      assert Ordered(merged) by {
        forall i | 0 <= i < |merged| - 1 ensures merged[i].End() <= merged[i + 1].time {
          assert merged[i].End() == rs[i + 1].End() <= rs[i + 2].time;
        }
      }
      assert Ticks(rs) == TicksOf(rs[0]) + TicksOf(rs[1]) + Ticks(rs[2..]);
      MergeSmallDefers(cfg, merged);
    }
  }

  /** Charging either stops after whole heads or also uses part of one. */
  lemma ChargeCases(cfg: Timing, rs: Refills, max: nat, period: nat, usage: nat, budget: nat, bound: nat)
    returns (r: Refills, left: nat)
    requires Shape(rs, max, budget, bound) && cfg.maxRelease + period <= bound
    ensures (r, left) == ChargeHeads(cfg, rs, max, period, usage) && left <= usage
    ensures || (&& Charge(cfg, rs, max, period, usage) == r
                && Charged(cfg, rs, max, period, usage) == usage - left)
            || (&& left < r[0].amount
                && Charge(cfg, rs, max, period, usage) == ChargePart(r, max, period, left)
                && Charged(cfg, rs, max, period, usage) == usage)
  {
    var p := ChargeHeads(cfg, rs, max, period, usage);
    r, left := p.0, p.1;
    ChargeHeadsKeeps(cfg, rs, max, period, usage, budget, bound);
  }

  lemma {:induction false} ChargeLags(cfg: Timing, rs: Refills, max: nat, period: nat, usage: nat, budget: nat, bound: nat)
    requires Shape(rs, max, budget, bound) && 0 < budget && cfg.maxRelease + period <= bound
    ensures Lags(Ticks(rs), Ticks(Charge(cfg, rs, max, period, usage)), Charged(cfg, rs, max, period, usage), period)
  {
    var r, left := ChargeCases(cfg, rs, max, period, usage, budget, bound);
    TicksCount(rs);
    ChargeHeadsLag(cfg, rs, max, period, usage);
    if left < r[0].amount {
      ChargePartLags(r, max, period, left);
      LagsCompose(Ticks(rs), Ticks(r), Ticks(ChargePart(r, max, period, left)), usage - left, left, period);
    }
  }

  /** Charging any usage whatever, even several laps of the refill list, gives no tick
      back early: the new ticks lag the old ones, used up to `Charged`, by the period. */
  lemma {:induction false} BudgetCheckLags(cfg: Timing, rs: Refills, max: nat, period: nat, usage: nat, budget: nat, bound: nat)
    requires Shape(rs, max, budget, bound)
    requires 0 < budget <= period && 1 < max && cfg.maxRelease + period <= bound
    ensures Lags(Ticks(rs), Ticks(BudgetCheck(cfg, rs, max, period, usage)), Charged(cfg, rs, max, period, usage), period)
  {
    var charged := Charge(cfg, rs, max, period, usage);
    ChargeLags(cfg, rs, max, period, usage, budget, bound);
    ChargeKeeps(cfg, rs, max, period, usage, budget, bound);
    MergeSmallDefers(cfg, charged);
    DeferLags(Ticks(rs), Ticks(charged), Ticks(MergeSmall(cfg, charged)), Charged(cfg, rs, max, period, usage), period);
  }

  // ----- supply -----

  lemma {:induction false} BelowAppend(a: seq<int>, b: seq<int>, x: int)
    ensures Below(a + b, x) == Below(a, x) + Below(b, x)
  {
    if a == [] {
      assert a + b == b;
    } else {
      assert (a + b)[1..] == a[1..] + b;
      BelowAppend(a[1..], b, x);
    }
  }

  lemma {:induction false} BelowRun(r: Refill, x: int)
    ensures Below(TicksOf(r), x) == Given(r, x)
    decreases r.amount
  {
    if r.amount > 0 {
      assert TicksOf(r)[1..] == TicksOf(Refill(r.time + 1, r.amount - 1));
      BelowRun(Refill(r.time + 1, r.amount - 1), x);
    }
  }

  lemma {:induction false} SupplyIsBelow(rs: seq<Refill>, x: int)
    ensures Supply(rs, x) == Below(Ticks(rs), x)
  {
    if rs != [] {
      BelowAppend(TicksOf(rs[0]), Ticks(rs[1..]), x);
      BelowRun(rs[0], x);
      SupplyIsBelow(rs[1..], x);
    }
  }

  lemma {:induction false} BelowAntitone(a: seq<int>, b: seq<int>, shift: int, x: int)
    requires |a| == |b| && forall i :: 0 <= i < |a| ==> a[i] <= b[i] - shift
    ensures Below(b, x) <= Below(a, x - shift)
  {
    if a != [] { BelowAntitone(a[1..], b[1..], shift, x); }
  }

  /** Lagging ticks, counted: a lag by `usage` ticks and one period bounds the count below. */
  lemma LagsBelow(t: seq<int>, r: seq<int>, usage: nat, period: nat, x: int)
    requires Lags(t, r, usage, period) && usage <= |t|
    ensures Below(r, x) <= Below(t[usage..], x) + Below(t[..usage], x - period)
  {
    var m := |t| - usage;
    var kept, back := r[..m], r[m..];
    assert r == kept + back;
    BelowAppend(kept, back, x);
    forall i | 0 <= i < m ensures t[usage..][i] <= kept[i] - 0 {
      assert r[i] >= Stream(t, period, usage + i);
    }
    forall i | 0 <= i < usage ensures t[..usage][i] <= back[i] - period {
      assert r[m + i] >= Stream(t, period, usage + (m + i)) == Stream(t, period, i) + period;
    }
    BelowAntitone(t[usage..], kept, 0, x);
    BelowAntitone(t[..usage], back, period, x);
  }

  /** The supply curve: after a charge that fits the budget and is charged in full, the
      supply at every instant is at most the old supply with its earliest `usage` ticks
      shifted one period later. */
  lemma {:induction false} ChargeNeverEarly(cfg: Timing, rs: Refills, max: nat, period: nat, usage: nat, budget: nat, bound: nat, x: int)
    requires Shape(rs, max, budget, bound)
    requires 0 < budget <= period && 1 < max && cfg.maxRelease + period <= bound
    requires usage <= budget && Charged(cfg, rs, max, period, usage) == usage
    ensures |Ticks(rs)| == budget
    ensures Supply(BudgetCheck(cfg, rs, max, period, usage), x)
            <= Below(Ticks(rs)[usage..], x) + Below(Ticks(rs)[..usage], x - period)
  {
    BudgetCheckLags(cfg, rs, max, period, usage, budget, bound);
    TicksCount(rs);
    SupplyIsBelow(BudgetCheck(cfg, rs, max, period, usage), x);
    LagsBelow(Ticks(rs), Ticks(BudgetCheck(cfg, rs, max, period, usage)), usage, period, x);
  }

  // ----- unblocking -----

  lemma {:induction false} AbsorbOverlapDefers(rs: Refills)
    ensures Defers(Ticks(rs), Ticks(AbsorbOverlap(rs)))
    decreases |rs|
  {
    if 1 < |rs| && rs[1].time <= rs[0].End() {
      var merged := [Refill(rs[0].time, rs[1].amount + rs[0].amount)] + rs[2..];
      assert merged[1..] == rs[1..][1..] == rs[2..];
      assert Ticks(rs) == TicksOf(rs[0]) + TicksOf(rs[1]) + Ticks(rs[2..]);
      AbsorbOverlapDefers(merged);
    }
  }

  /** Unblocking may advance ticks, because a head up to `wcet` ticks in the future is
      already ready and is moved back to `now`.  No tick is ever advanced further than
      that, and none is advanced exactly when the head is not in that window. */
  lemma {:induction false} UnblockDefers(cfg: Timing, rs: Refills, now: nat)
    requires 0 < rs[0].amount
    ensures var t, r := Ticks(rs), Ticks(Unblock(cfg, rs, now));
            && |t| == |r|
            && (forall i :: 0 <= i < |t| ==> r[i] >= t[i] - cfg.wcet)
            && (Defers(t, r) <==> !(now < rs[0].time <= now + cfg.wcet))
  {
    if Ready(cfg, rs, now) {
      var moved := rs[0 := Refill(now, rs[0].amount)];
      ShiftHeadTicks(rs, now);
      AbsorbOverlapDefers(moved);
      AbsorbOverlapStart(moved);
    }
  }

  lemma ShiftHeadTicks(rs: Refills, now: nat)
    ensures var t, r := Ticks(rs), Ticks(rs[0 := Refill(now, rs[0].amount)]);
            && |t| == |r| >= rs[0].amount
            && (0 < rs[0].amount ==> t[0] == rs[0].time)
            && (forall i :: 0 <= i < |t| ==> r[i] == t[i] + (if i < rs[0].amount then now - rs[0].time else 0))
  {
    var moved := rs[0 := Refill(now, rs[0].amount)];
    assert moved[1..] == rs[1..];
    assert Ticks(rs) == TicksOf(rs[0]) + Ticks(rs[1..]);
  }

  lemma {:induction false} AbsorbOverlapStart(rs: Refills)
    requires 0 < rs[0].amount
    ensures 0 < |Ticks(AbsorbOverlap(rs))| && Ticks(AbsorbOverlap(rs))[0] == rs[0].time
    decreases |rs|
  {
    if 1 < |rs| && rs[1].time <= rs[0].End() {
      AbsorbOverlapStart([Refill(rs[0].time, rs[1].amount + rs[0].amount)] + rs[2..]);
    }
  }

  /** The window is not empty: a head that lies one tick ahead is pulled forward. */
  lemma UnblockCanAdvance()
    ensures exists cfg: Timing, rs: Refills, now: nat ::
              cfg.Valid() && Supply(Unblock(cfg, rs, now), now + 1) > Supply(rs, now + 1)
  {
    var cfg := Timing(1, 2, 2, UINT64_MAX - 10);
    var rs := [Refill(1, 2)];
    assert rs[1..] == [];
    assert Unblock(cfg, rs, 0) == [Refill(0, 2)];
    assert [Refill(0, 2)][1..] == [];
    assert Supply(Unblock(cfg, rs, 0), 0 + 1) > Supply(rs, 0 + 1);
  }
}
