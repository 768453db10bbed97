/**
 How high the base rate of the policy can get when a period redeems at most a share of what
 it leaves. Above a rate of 1 the price floor is gone and nothing is redeemed, so that the
 limit is lower than 25 times the share once that exceeds 1; and it is approached.
 */
module BaseRateLimit {
  import opened Powers
  import opened Troves
  import opened PriceStabilizer
  import opened Economy

  // The share that keeps the base rate at 1.
  const SHARE_AT_ONE: real := 0.04

  function Min(x: real, y: real): real {
    if x <= y then x else y
  }

  // The rate just after a full share was redeemed at the highest rate that allows it.
  function RateReach(share: real): real {
    24.5 * Min(share, SHARE_AT_ONE) + 0.5 * share
  }

  // --- The limit ---

  ghost predicate InReach(st: State, q: real)
    requires q < 1.0
  {
    && Inv(st) && 0.0 <= ShareRedeemed(st) <= Leverage(q)
    && st.last.baseRate < RateReach(Leverage(q))
    && (st.last.redemptionPool > 0.0 ==> st.last.baseRate < 1.0)
  }

  lemma MovedWithin(rate: real, share: real, limit: real)
    requires 0.0 <= share <= limit && limit > 0.0 && 0.0 <= rate < RateReach(limit)
    requires share > 0.0 ==> rate < 1.0
    ensures MovedRate(rate, share) < RateReach(limit)
  {
  }

  // Nothing is redeemed at a rate of 1 or more.
  lemma RedeemsBelowOne(lib: Library, st: State, d: Draws)
    requires Faithful(lib) && Inv(st) && InRangeDraws(d) && Next(lib, true, st, d).Running?
    ensures Next(lib, true, st, d).state.last.redemptionPool > 0.0 ==> BaseRate(st) < 1.0
  {
    var q := RunningQuote(lib, true, st, d);
    var ts, c := AfterOpening(st.troves, d), PeriodConditions(st, d, true);
    SortedIsSound(lib, ts, c);
    RedeemsAsPlanned(lib, ts, c);
  }

  lemma SharesWithin(st: State, ratio: real, q: real)
    requires Inv(st) && ratio <= q < 1.0
    requires WithinShare(st.last.redemptionPool, ratio, Total(st.troves) + st.last.redemptionPool)
    ensures 0.0 <= ShareRedeemed(st) <= Leverage(q)
  {
    var left := Total(st.troves);
    ShareLeft(st.last.redemptionPool, left, ratio, q);
    QuotientOrder(st.last.redemptionPool, left, 0.0);
    QuotientOrder(st.last.redemptionPool, left, Leverage(q));
  }

  lemma NextInReach(lib: Library, st: State, d: Draws, q: real)
    requires Faithful(lib) && 0.0 < q < 1.0 && Leverage(q) > 0.0 && InReach(st, q)
    requires InRangeDraws(d) && d.redemptionRatio <= q && Next(lib, true, st, d).Running?
    ensures InReach(Next(lib, true, st, d).state, q)
  {
    NextRedeemsWithin(lib, st, d, q);
    RateRecorded(lib, true, st, d);
    RedeemsBelowOne(lib, st, d);
    RateInReach(st, q);
    InReachAt(Next(lib, true, st, d).state, BaseRate(st), q);
  }

  lemma NextRedeemsWithin(lib: Library, st: State, d: Draws, q: real)
    requires Faithful(lib) && Inv(st) && InRangeDraws(d) && Next(lib, true, st, d).Running?
    requires d.redemptionRatio <= q < 1.0
    ensures Inv(Next(lib, true, st, d).state)
    ensures 0.0 <= ShareRedeemed(Next(lib, true, st, d).state) <= Leverage(q)
  {
    StepIsSafe(lib, true, st, d);
    SharesWithin(Next(lib, true, st, d).state, d.redemptionRatio, q);
  }

  lemma InReachAt(st: State, rate: real, q: real)
    requires q < 1.0 && Inv(st) && 0.0 <= ShareRedeemed(st) <= Leverage(q)
    requires st.last.baseRate == rate < RateReach(Leverage(q))
    requires st.last.redemptionPool > 0.0 ==> rate < 1.0
    ensures InReach(st, q)
  {
  }

  lemma RateInReach(st: State, q: real)
    requires 0.0 < q < 1.0 && Leverage(q) > 0.0 && InReach(st, q)
    ensures BaseRate(st) < RateReach(Leverage(q))
  {
    if ShareRedeemed(st) > 0.0 {
      QuotientOrder(st.last.redemptionPool, Total(st.troves), 0.0);
    }
    MovedWithin(st.last.baseRate, ShareRedeemed(st), Leverage(q));
  }

  lemma {:induction false} RunInReach(lib: Library, st: State, ds: seq<Draws>, q: real)
    requires Faithful(lib) && 0.0 < q < 1.0 && Leverage(q) > 0.0 && InReach(st, q)
    requires forall i :: 0 <= i < |ds| ==> InRangeDraws(ds[i]) && ds[i].redemptionRatio <= q
    ensures Run(lib, true, st, ds).Running? ==> InReach(Run(lib, true, st, ds).state, q)
    decreases |ds|
  {
    if ds != [] && Next(lib, true, st, ds[0]).Running? {
      var next := Next(lib, true, st, ds[0]).state;
      NextInReach(lib, st, ds[0], q);
      RunStep(lib, true, st, ds, next);
      RunInReach(lib, next, ds[1..], q);
    } else if ds != [] {
      RunStop(lib, true, st, ds);
    }
  }

  lemma LeveragePositive(q: real)
    requires 0.0 < q < 1.0
    ensures Leverage(q) > 0.0
  {
    QuotientOrder(q, 1.0 - q, 0.0);
  }

  lemma StartsInReach(etherPrice: real, openings: seq<Opening>, q: real)
    requires AllInRange(openings) && |openings| == INITIAL_OPEN && etherPrice > 0.0 && 0.0 < q < 1.0
    ensures Leverage(q) > 0.0 && InReach(InitialState(etherPrice, openings), q)
    ensures ShareRedeemed(InitialState(etherPrice, openings)) == 0.0
  {
    LeveragePositive(q);
    InitialStateIsSafe(etherPrice, openings);
    QuotientOrder(0.0, Total(InitialState(etherPrice, openings).troves), 0.0);
  }

  // With redemption ratios up to `q`, every base rate the simulation reaches is below the
  // limit, which is 25 q / (1 - q) or, where that exceeds 1, less.
  lemma BaseRateBelowReach(lib: Library, etherPrice: real, openings: seq<Opening>, ds: seq<Draws>, q: real)
    requires Faithful(lib) && AllInRange(openings) && |openings| == INITIAL_OPEN && etherPrice > 0.0
    requires 0.0 < q < 1.0
    requires forall i :: 0 <= i < |ds| ==> InRangeDraws(ds[i]) && ds[i].redemptionRatio <= q
    ensures Inv(InitialState(etherPrice, openings))
    ensures var r := Run(lib, true, InitialState(etherPrice, openings), ds);
            r.Running? ==> 0.0 <= r.state.last.baseRate < RateReach(Leverage(q)) <= 25.0 * Leverage(q)
    ensures RateReach(Leverage(q)) == 25.0 * Leverage(q) <==> 25.0 * Leverage(q) <= 1.0
  {
    StartsInReach(etherPrice, openings, q);
    RunInReach(lib, InitialState(etherPrice, openings), ds, q);
  }

  // --- It is approached ---

  function Redeemed(ratio: real, supply: real): real {
    ratio * supply
  }

  function Left(ratio: real, supply: real): real {
    supply - ratio * supply
  }

  lemma LeftIsPart(ratio: real, supply: real)
    requires 0.0 < ratio < 1.0 && supply > 0.0
    ensures 0.0 < Left(ratio, supply) < supply
  {
    ProductOrder(ratio, 1.0, supply);
    ProductOrder(0.0, ratio, supply);
  }

  // One call that redeems its whole share: the market is such that the floor price belongs
  // to exactly what the redemption leaves.
  lemma FullShareCall(lib: Library, ts: seq<Trove>, c: Conditions, floor: real)
    requires Ready(lib, ts, c) && c.stability == 0.0 && Total(ts) > 0.0 && c.redemptionRatio > 0.0
    requires floor == FloorPrice(c) > 0.0 && PoolAt(c, floor) == Left(c.redemptionRatio, Total(ts))
    ensures Stabilize(lib, ts, c).Quoted?
    ensures Stabilize(lib, ts, c).quote.redemptionPool == Redeemed(c.redemptionRatio, Total(ts))
    ensures Total(Stabilize(lib, ts, c).quote.troves) == Left(c.redemptionRatio, Total(ts))
  {
    LeftIsPart(c.redemptionRatio, Total(ts));
    LargePoolIsBelow(lib, ts, c, floor);
    FloorOutcome(lib, ts, c);
    CappedPlan(lib, ts, c, floor);
  }

  lemma LargePoolIsBelow(lib: Library, ts: seq<Trove>, c: Conditions, floor: real)
    requires Faithful(lib) && InRangeConditions(c) && c.stability == 0.0
    requires floor > 0.0 && 0.0 < PoolAt(c, floor) < Total(ts)
    ensures RawPrice(lib, ts, c).Below(floor)
  {
    MarketPriceLaw(lib, c, Total(ts));
    PoolAtLaw(c, floor);
    LawIsDecreasing(MarketPrice(lib, c, Total(ts)).value, Total(ts), floor, PoolAt(c, floor), c);
  }

  lemma CappedPlan(lib: Library, ts: seq<Trove>, c: Conditions, floor: real)
    requires InRangeConditions(c) && c.stability == 0.0
    requires floor == FloorPrice(c) > 0.0 && PoolAt(c, floor) == Left(c.redemptionRatio, Total(ts))
    ensures FloorPlan(lib, Total(ts), Total(ts) - c.stability, c).redeemed == Redeemed(c.redemptionRatio, Total(ts))
  {
  }

  // The market at which the floor price belongs to this pool.
  lemma MarketFor(previousPrice: real, floor: real, pool: real) returns (market: real)
    requires previousPrice > 0.0 && floor > 0.0 && pool > 0.0
    ensures market > 0.0
    ensures floor / previousPrice > 0.0 && market * DeltaPower(floor / previousPrice) == pool
  {
    QuotientOrder(floor, previousPrice, 0.0);
    var power := DeltaPower(floor / previousPrice);
    QuotientOrder(1.0, Pow(floor / previousPrice, 20), 0.0);
    market := pool / power;
    QuotientOrder(pool, power, 0.0);
  }

  // Draws of a period in which one trove opens and nothing else happens to the table.
  function QuietDraws(etherPrice: real, growth: real, ratio: real): Draws {
    Draws(etherPrice, 0, n => {}, 0.0, i => 0.0, [Opening(1.5, 1.5, 1.0)], 0.0, growth, ratio)
  }

  lemma QuietDrawsInRange(etherPrice: real, growth: real, ratio: real)
    requires etherPrice > 0.0 && growth > 0.0 && 0.0 <= ratio < 1.0
    ensures InRangeDraws(QuietDraws(etherPrice, growth, ratio))
  {
  }

  lemma QuietTable(st: State, d: Draws)
    requires Inv(st) && InRangeDraws(d) && AllSound(st.troves) && d.entrants != []
    ensures Total(AfterOpening(st.troves, d)) > 0.0
  {
    var ts := AfterOpening(st.troves, d);
    forall i | 0 <= i < |ts|
      ensures Sound(ts[i])
    {
      assert Safe(ts[i], d.etherPrice);
    }
    TotalNonNegative(ts);
  }

  lemma GrowthDoesNotReshape(ts: seq<Trove>, d: Draws, growth: real)
    requires AllSound(ts) && InRangeDraws(d) && growth > 0.0
    ensures InRangeDraws(d.(growth := growth))
    ensures AfterOpening(ts, d.(growth := growth)) == AfterOpening(ts, d)
  {
  }

  // A period with no stability pool and nothing to close runs to its end.
  lemma QuietPeriodRuns(lib: Library, st: State, d: Draws) returns (next: State)
    requires Faithful(lib) && Inv(st) && InRangeDraws(d) && d.closeCount == 0 && d.stability == 0.0
    requires AllSound(st.troves) && Total(AfterOpening(st.troves, d)) > 0.0
    ensures Next(lib, true, st, d) == Running(next) && Inv(next) && next.last.baseRate == BaseRate(st)
    ensures Stabilize(lib, AfterOpening(st.troves, d), PeriodConditions(st, d, true)).Quoted?
    ensures var q := Stabilize(lib, AfterOpening(st.troves, d), PeriodConditions(st, d, true)).quote;
            next.troves == q.troves && next.last.redemptionPool == q.redemptionPool
  {
    StepIsSafe(lib, true, st, d);
    RateRecorded(lib, true, st, d);
    var q := RunningQuote(lib, true, st, d);
    next := Next(lib, true, st, d).state;
  }

  // From any state with a rate below 1 some period redeems a full share.
  lemma ShareStep(lib: Library, st: State, ratio: real) returns (d: Draws, next: State)
    requires Faithful(lib) && Inv(st) && BaseRate(st) < 1.0 && 0.0 < ratio < 1.0
    ensures InRangeDraws(d) && d.redemptionRatio == ratio
    ensures Next(lib, true, st, d) == Running(next) && Inv(next)
    ensures next.last.baseRate == BaseRate(st) && ShareRedeemed(next) == Leverage(ratio)
  {
    InvTroves(st);
    var probe := QuietDraws(st.last.etherPrice, 1.0, ratio);
    QuietDrawsInRange(st.last.etherPrice, 1.0, ratio);
    QuietTable(st, probe);
    var supply := Total(AfterOpening(st.troves, probe));
    LeftIsPart(ratio, supply);
    var growth := GrowthFor(st, 1.0 - BaseRate(st), Left(ratio, supply));
    d := probe.(growth := growth);
    GrowthDoesNotReshape(st.troves, probe, growth);
    PoolOfPeriod(st, d, 1.0 - BaseRate(st), Left(ratio, supply));
    next := FullSharePeriod(lib, st, d, supply);
  }

  // The growth at which the floor price belongs to this pool.
  predicate GrowsTo(st: State, growth: real, floor: real, pool: real)
    requires st.last.price > 0.0
  {
    && floor / st.last.price > 0.0
    && st.last.liquidity * growth * DeltaPower(floor / st.last.price) == pool
  }

  lemma GrowthFor(st: State, floor: real, pool: real) returns (growth: real)
    requires Inv(st) && floor > 0.0 && pool > 0.0
    ensures growth > 0.0 && GrowsTo(st, growth, floor, pool)
  {
    var market := MarketFor(st.last.price, floor, pool);
    QuotientOrder(market, st.last.liquidity, 0.0);
    growth := market / st.last.liquidity;
    assert st.last.liquidity * growth == market;
  }

  lemma PoolOfPeriod(st: State, d: Draws, floor: real, pool: real)
    requires Inv(st) && InRangeDraws(d) && floor > 0.0 && GrowsTo(st, d.growth, floor, pool)
    ensures PoolAt(PeriodConditions(st, d, true), floor) == pool
  {
  }

  lemma FullSharePeriod(lib: Library, st: State, d: Draws, supply: real) returns (next: State)
    requires Faithful(lib) && Inv(st) && InRangeDraws(d) && AllSound(st.troves) && BaseRate(st) < 1.0
    requires d.closeCount == 0 && d.stability == 0.0 && d.redemptionRatio > 0.0
    requires supply == Total(AfterOpening(st.troves, d)) > 0.0
    requires PoolAt(PeriodConditions(st, d, true), 1.0 - BaseRate(st)) == Left(d.redemptionRatio, supply)
    ensures Next(lib, true, st, d) == Running(next) && Inv(next)
    ensures next.last.baseRate == BaseRate(st) && ShareRedeemed(next) == Leverage(d.redemptionRatio)
  {
    next := QuietPeriodRuns(lib, st, d);
    FullShareCall(lib, AfterOpening(st.troves, d), PeriodConditions(st, d, true), 1.0 - BaseRate(st));
    ShareOfRest(supply, d.redemptionRatio, next.last.redemptionPool, Total(next.troves));
  }

  lemma ShareOfRest(supply: real, ratio: real, part: real, rest: real)
    requires supply > 0.0 && 0.0 < ratio < 1.0
    requires part == Redeemed(ratio, supply) && rest == Left(ratio, supply)
    ensures rest > 0.0 && part / rest == Leverage(ratio)
  {
    LeftIsPart(ratio, supply);
    QuotientOrder(ratio, 1.0 - ratio, Leverage(ratio));
    assert rest == (1.0 - ratio) * supply;
    assert Leverage(ratio) * rest == (Leverage(ratio) * (1.0 - ratio)) * supply;
    QuotientOrder(part, rest, Leverage(ratio));
  }

  // A last period, to see the rate that the one before it leads to.
  lemma LastStep(lib: Library, st: State, q: real) returns (d: Draws, next: State)
    requires Faithful(lib) && Inv(st) && 0.0 <= q < 1.0
    ensures InRangeDraws(d) && d.redemptionRatio <= q
    ensures Next(lib, true, st, d) == Running(next) && Inv(next) && next.last.baseRate == BaseRate(st)
  {
    InvTroves(st);
    d := QuietDraws(st.last.etherPrice, 1.0, 0.0);
    QuietDrawsInRange(st.last.etherPrice, 1.0, 0.0);
    QuietTable(st, d);
    next := QuietPeriodRuns(lib, st, d);
  }

  // Where a rate gets in `n` periods that each redeem a share.
  function Climbed(rate: real, share: real, n: nat): real {
    25.0 * share - Decayed(25.0 * share - rate, n)
  }

  lemma ClimbOnce(rate: real, share: real, n: nat)
    requires n > 0
    ensures Climbed(MovedRate(rate, share), share, n - 1) == Climbed(rate, share, n)
  {
    var power, gap := Pow(0.98, n - 1), 25.0 * share - rate;
    assert 25.0 * share - MovedRate(rate, share) == 0.98 * gap;
    assert power * (0.98 * gap) == (0.98 * power) * gap;
  }

  ghost predicate AllInRangeUpTo(ds: seq<Draws>, q: real) {
    forall i :: 0 <= i < |ds| ==> InRangeDraws(ds[i]) && ds[i].redemptionRatio <= q
  }

  // These periods, with redemption ratios up to `q`, lead to this rate.
  ghost predicate Reaches(lib: Library, st: State, ds: seq<Draws>, rate: real, q: real)
    requires Faithful(lib) && Inv(st)
  {
    && AllInRangeUpTo(ds, q)
    && Run(lib, true, st, ds).Running? && Run(lib, true, st, ds).state.last.baseRate == rate
  }

  lemma OnePeriodMore(lib: Library, st: State, d: Draws, next: State, rest: seq<Draws>, rate: real, q: real)
    requires Faithful(lib) && Inv(st) && InRangeDraws(d) && d.redemptionRatio <= q
    requires Next(lib, true, st, d) == Running(next) && Inv(next) && Reaches(lib, next, rest, rate, q)
    ensures Reaches(lib, st, [d] + rest, rate, q)
  {
    var ds := [d] + rest;
    assert AllInRangeUpTo(ds, q);
    assert ds[0] == d && ds[1..] == rest;
    RunStep(lib, true, st, ds, next);
  }

  lemma NoPeriodMore(lib: Library, st: State, q: real)
    requires Faithful(lib) && Inv(st)
    ensures Reaches(lib, st, [], st.last.baseRate, q)
  {
  }

  // One period that redeems a full share, and a last one.
  lemma Strike(lib: Library, st: State, q: real) returns (ds: seq<Draws>)
    requires Faithful(lib) && Inv(st) && 0.0 < q < 1.0 && BaseRate(st) < 1.0
    ensures Reaches(lib, st, ds, MovedRate(BaseRate(st), Leverage(q)), q)
  {
    var d, next := ShareStep(lib, st, q);
    var d', last := LastStep(lib, next, q);
    NoPeriodMore(lib, last, q);
    OnePeriodMore(lib, next, d', last, [], last.last.baseRate, q);
    OnePeriodMore(lib, st, d, next, [d'] + [], last.last.baseRate, q);
    ds := [d] + ([d'] + []);
  }

  // A period that redeems a share below what the rate calls for lifts the rate.
  lemma RisingStep(lib: Library, st: State, ratio: real, rate: real, share: real) returns (d: Draws, next: State)
    requires Faithful(lib) && Inv(st) && 0.0 < ratio < 1.0 && rate == BaseRate(st) && share == Leverage(ratio)
    requires rate < 25.0 * share <= 1.0
    ensures InRangeDraws(d) && d.redemptionRatio == ratio
    ensures Next(lib, true, st, d) == Running(next) && Inv(next)
    ensures BaseRate(next) == MovedRate(rate, share) < 25.0 * share
  {
    d, next := ShareStep(lib, st, ratio);
  }

  // `n` periods that redeem the first ratio, one that redeems the second, and a last one.
  lemma {:induction false} Climb(
    lib: Library, st: State, ratio: real, q: real, n: nat, rate: real, share: real, top: real)
    returns (ds: seq<Draws>)
    requires Faithful(lib) && Inv(st) && 0.0 < ratio <= q < 1.0
    requires rate == BaseRate(st) && share == Leverage(ratio) && rate < 25.0 * share <= 1.0
    requires top == MovedRate(Climbed(rate, share, n), Leverage(q))
    ensures Reaches(lib, st, ds, top, q)
    decreases n
  {
    if n == 0 {
      ds := Strike(lib, st, q);
      NotClimbed(rate, share);
    } else {
      var d, next := RisingStep(lib, st, ratio, rate, share);
      ClimbOnce(rate, share, n);
      var rest := Climb(lib, next, ratio, q, n - 1, MovedRate(rate, share), share, top);
      OnePeriodMore(lib, st, d, next, rest, top, q);
      ds := [d] + rest;
    }
  }

  lemma NotClimbed(rate: real, share: real)
    ensures Climbed(rate, share, 0) == rate
  {
  }

  // The ratio whose share is the lesser of `q`'s and the one that keeps the rate at 1.
  lemma ClimbingRatio(q: real) returns (ratio: real)
    requires 0.0 < q < 1.0
    ensures 0.0 < ratio <= q && Leverage(ratio) == Min(Leverage(q), SHARE_AT_ONE) > 0.0
  {
    LeveragePositive(q);
    ratio := q;
    QuotientOrder(q, 1.0 - q, SHARE_AT_ONE);
    if Leverage(q) > SHARE_AT_ONE {
      ratio := 1.0 / 26.0;
      assert Leverage(ratio) == SHARE_AT_ONE;
    }
  }

  // From any start and for every `n` some run of the simulation gets as close to the limit
  // as 24.5 times the climbing share, decayed `n` times: no lower limit holds.
  lemma BaseRateReachIsTight(lib: Library, etherPrice: real, openings: seq<Opening>, q: real, n: nat)
    returns (ds: seq<Draws>)
    requires Faithful(lib) && AllInRange(openings) && |openings| == INITIAL_OPEN && etherPrice > 0.0
    requires 0.0 < q < 1.0
    ensures Inv(InitialState(etherPrice, openings))
    ensures Reaches(lib, InitialState(etherPrice, openings), ds,
                    RateReach(Leverage(q)) - Decayed(24.5 * Min(Leverage(q), SHARE_AT_ONE), n), q)
  {
    StartsInReach(etherPrice, openings, q);
    var ratio := ClimbingRatio(q);
    var st, share := InitialState(etherPrice, openings), Leverage(ratio);
    ds := Climb(lib, st, ratio, q, n, 0.0, share, MovedRate(Climbed(0.0, share, n), Leverage(q)));
    TopOfClimb(share, Leverage(q), n);
  }

  lemma TopOfClimb(share: real, full: real, n: nat)
    requires share == Min(full, SHARE_AT_ONE)
    ensures MovedRate(Climbed(0.0, share, n), full) == RateReach(full) - Decayed(24.5 * share, n)
  {
    ScaledDecay(share, n);
  }

  lemma ScaledDecay(share: real, n: nat)
    ensures 0.98 * Decayed(25.0 * share, n) == Decayed(24.5 * share, n)
  {
    var power := Pow(0.98, n);
    assert 0.98 * (power * (25.0 * share)) == power * (24.5 * share);
  }
}
