/**
 The simulation loop of the macro model: each period liquidates, closes, adjusts and
 opens troves and then stabilises the price. With the policy switch on, the issuance and
 redemption rates follow the base rate of the second simulation.
 */
module Economy {
  import opened Powers
  import opened Troves
  import opened PriceStabilizer

  // The columns of the `data` frame that later periods, or the results below, read.
  datatype Row = Row(
    price: real,
    etherPrice: real,
    liquidity: real,
    stability: real,
    supply: real,
    redemptionPool: real,
    issuanceFee: real,
    redemptionFee: real,
    baseRate: real
  )

  datatype State = State(troves: seq<Trove>, last: Row)

  // The random draws and exogenous series of one period. `closeCount` is the number of
  // troves to close, and `sample(n)` the rows drawn when that many are drawn out of `n`.
  datatype Draws = Draws(
    etherPrice: real,
    closeCount: nat,
    sample: nat -> set<nat>,
    adjustRatio: real,
    pick: nat -> real,
    entrants: seq<Opening>,
    stability: real,
    growth: real,
    redemptionRatio: real
  )

  // A sample of distinct rows of the table.
  predicate Picks(rows: set<nat>, count: nat, n: nat) {
    |rows| == count && forall i <- rows :: i < n
  }

  ghost predicate InRangeDraws(d: Draws) {
    && (forall n: nat :: d.closeCount <= n ==> Picks(d.sample(n), d.closeCount, n))
    && d.etherPrice > 0.0 && AllInRange(d.entrants)
    && d.stability >= 0.0 && d.growth > 0.0 && 0.0 <= d.redemptionRatio < 1.0
  }

  // Every reachable state: a safe table at the last ether price and a live market.
  predicate Inv(st: State) {
    && AllSafe(st.troves, st.last.etherPrice)
    && Total(st.troves) > 0.0 && st.last.supply == Total(st.troves)
    && st.last.etherPrice > 0.0 && st.last.price > 0.0 && st.last.liquidity > 0.0
    && st.last.redemptionPool >= 0.0 && st.last.baseRate >= 0.0
  }

  predicate AllFreshSafe(ts: seq<Trove>, etherPrice: real) {
    forall i :: 0 <= i < |ts| ==> Safe(ts[i], etherPrice) && Fresh(ts[i])
  }

  // --- Liquidating and closing ---

  function AfterLiquidation(ts: seq<Trove>, d: Draws): (r: seq<Trove>)
    requires AllSound(ts)
    ensures AllFreshSafe(r, d.etherPrice)
  {
    LiquidationKeepsExactlySafe(ts, d.etherPrice);
    var r := Survivors(MarkToMarket(ts, d.etherPrice));
    assert forall i :: 0 <= i < |r| ==> r[i] in r;
    r
  }

  function AfterClosing(ts: seq<Trove>, d: Draws): (r: seq<Trove>)
    requires AllSound(ts)
    ensures AllFreshSafe(r, d.etherPrice)
  {
    var left := AfterLiquidation(ts, d);
    var r := DropRows(left, d.sample(|left|));
    ClosingInventsNothing(left, d.sample(|left|));
    assert forall i :: 0 <= i < |r| ==> r[i] in r;
    r
  }

  // --- Fees, summed row by row as the loops do ---

  function AdjustFee(t: Trove, p: real, ratio: real, rate: real): real
    requires Sound(t)
  {
    if p >= ratio && Deviation(t) > 2.0 then Fee(rate, TargetSupply(t) - t.supply) else 0.0
  }

  function AdjustFees(ts: seq<Trove>, d: Draws, rate: real, n: nat): real
    requires Priced(ts, d.etherPrice) && n <= |ts|
  {
    if n == 0 then 0.0
    else AdjustFees(ts, d, rate, n - 1) + AdjustFee(ts[n - 1], d.pick(n - 1), d.adjustRatio, rate)
  }

  function OpenFees(d: Draws, rate: real, n: nat): real
    requires AllInRange(d.entrants) && n <= |d.entrants|
  {
    if n == 0 then 0.0
    else OpenFees(d, rate, n - 1) + Fee(rate, Open(d.entrants[n - 1], d.etherPrice).supply)
  }

  lemma AdjustFeeIsForIncrease(t: Trove, p: real, ratio: real, rate: real)
    requires Safe(t, t.etherPrice) && t.etherPrice > 0.0 && Fresh(t)
    ensures var rise := Adjust(t, p, ratio).supply - t.supply;
            AdjustFee(t, p, ratio, rate) == Fee(rate, if rise > 0.0 then rise else 0.0)
  {
    AdjustHitsTarget(t, p, ratio);
  }

  lemma Distribute(rate: real, a: real, b: real)
    ensures Fee(rate, a + b) == Fee(rate, a) + Fee(rate, b)
  {
  }

  // The fee is the rate times the debt created, and nothing is charged for a decrease.
  lemma {:induction false} AdjustFeesAreForIncreases(ts: seq<Trove>, d: Draws, rate: real, n: nat)
    requires AllFreshSafe(ts, d.etherPrice) && d.etherPrice > 0.0 && n <= |ts|
    ensures AdjustFees(ts, d, rate, n) ==
            Fee(rate, Raised(ts[..n], AdjustAll(ts, d.etherPrice, d.pick, d.adjustRatio)[..n]))
  {
    if n > 0 {
      var after := AdjustAll(ts, d.etherPrice, d.pick, d.adjustRatio);
      AdjustFeesAreForIncreases(ts, d, rate, n - 1);
      assert ts[..n][..n - 1] == ts[..n - 1] && after[..n][..n - 1] == after[..n - 1];
      AdjustFeeIsForIncrease(ts[n - 1], d.pick(n - 1), d.adjustRatio, rate);
      var rise := after[n - 1].supply - ts[n - 1].supply;
      Distribute(rate, Raised(ts[..n - 1], after[..n - 1]), if rise > 0.0 then rise else 0.0);
    }
  }

  lemma {:induction false} OpenFeesAreForNewDebt(d: Draws, rate: real, n: nat)
    requires AllInRange(d.entrants) && n <= |d.entrants|
    ensures OpenFees(d, rate, n) == Fee(rate, Total(OpenAll(d.entrants, d.etherPrice)[..n]))
  {
    if n > 0 {
      var table := OpenAll(d.entrants, d.etherPrice);
      OpenFeesAreForNewDebt(d, rate, n - 1);
      assert table[..n] == table[..n - 1] + [table[n - 1]];
      TotalSnoc(table[..n - 1], table[n - 1]);
      Distribute(rate, Total(table[..n - 1]), table[n - 1].supply);
    }
  }

  // --- Adjusting and opening ---

  lemma AdjustedTableIsSafe(ts: seq<Trove>, d: Draws)
    requires AllFreshSafe(ts, d.etherPrice) && d.etherPrice > 0.0
    ensures AllSafe(AdjustAll(ts, d.etherPrice, d.pick, d.adjustRatio), d.etherPrice)
  {
    forall i | 0 <= i < |ts|
      ensures Safe(Adjust(ts[i], d.pick(i), d.adjustRatio), d.etherPrice)
    {
      AdjustHitsTarget(ts[i], d.pick(i), d.adjustRatio);
    }
  }

  function AfterAdjusting(ts: seq<Trove>, d: Draws): (r: seq<Trove>)
    requires AllSound(ts) && d.etherPrice > 0.0
    ensures AllSafe(r, d.etherPrice)
  {
    AdjustedTableIsSafe(AfterClosing(ts, d), d);
    AdjustAll(AfterClosing(ts, d), d.etherPrice, d.pick, d.adjustRatio)
  }

  function AfterOpening(ts: seq<Trove>, d: Draws): (r: seq<Trove>)
    requires AllSound(ts) && InRangeDraws(d)
    ensures AllSafe(r, d.etherPrice)
  {
    var newcomers := OpenAll(d.entrants, d.etherPrice);
    OpenedAreSafe(d.entrants, d.etherPrice);
    AfterAdjusting(ts, d) + newcomers
  }

  lemma OpenedAreSafe(ds: seq<Opening>, etherPrice: real)
    requires AllInRange(ds) && etherPrice > 0.0
    ensures AllSafe(OpenAll(ds, etherPrice), etherPrice)
  {
    forall i | 0 <= i < |ds|
      ensures Safe(Open(ds[i], etherPrice), etherPrice)
    {
      OpenIsSafe(ds[i], etherPrice);
    }
  }

  // --- One period ---

  const FIXED_RATE: real := 0.01

  // The share of the supply that a state's period redeemed, relative to what it left.
  function ShareRedeemed(st: State): real
    requires Total(st.troves) != 0.0
  {
    st.last.redemptionPool / Total(st.troves)
  }

  // The base rate decays by 2% and moves up with the share redeemed in the last period.
  function BaseRate(st: State): real
    requires Total(st.troves) != 0.0
  {
    MovedRate(st.last.baseRate, ShareRedeemed(st))
  }

  function MovedRate(rate: real, share: real): real {
    0.98 * rate + 0.5 * share
  }

  function Rate(st: State, policy: bool): real
    requires Total(st.troves) != 0.0
  {
    if policy then BaseRate(st) else FIXED_RATE
  }

  lemma RateNonNegative(st: State, policy: bool)
    requires Inv(st)
    ensures Rate(st, policy) >= 0.0
  {
    QuotientOrder(st.last.redemptionPool, Total(st.troves), 0.0);
  }

  function PeriodConditions(st: State, d: Draws, policy: bool): (c: Conditions)
    requires Inv(st) && InRangeDraws(d)
    ensures InRangeConditions(c)
  {
    RateNonNegative(st, policy);
    ProductPositive(st.last.liquidity, d.growth);
    Conditions(st.last.price, st.last.liquidity * d.growth, d.stability, d.etherPrice,
               Rate(st, policy), Rate(st, policy), d.redemptionRatio)
  }

  // `Stopped` is either `break` of the loop and `Crashed` an exception: the ValueError of
  // sampling more rows than there are, or the IndexError of the redemption loop. The state
  // is what the loop leaves behind.
  datatype Outcome = Crashed(state: State) | Stopped(state: State) | Running(state: State)

  lemma InvTroves(st: State)
    requires Inv(st)
    ensures AllSound(st.troves)
  {
    forall i | 0 <= i < |st.troves|
      ensures Sound(st.troves[i])
    {
      assert Safe(st.troves[i], st.last.etherPrice);
    }
  }

  function IssuanceFees(st: State, d: Draws, policy: bool): real
    requires Inv(st) && InRangeDraws(d)
  {
    InvTroves(st);
    var closed := AfterClosing(st.troves, d);
    AdjustFees(closed, d, Rate(st, policy), |closed|) + OpenFees(d, Rate(st, policy), |d.entrants|)
  }

  function NewRow(st: State, d: Draws, policy: bool, q: Quote): Row
    requires Inv(st) && InRangeDraws(d) && q.price.Finite?
  {
    RowOf(d, q, IssuanceFees(st, d, policy), if policy then BaseRate(st) else st.last.baseRate)
  }

  function RowOf(d: Draws, q: Quote, issuance: real, baseRate: real): Row
    requires q.price.Finite?
  {
    Row(q.price.value, d.etherPrice, q.liquidity, d.stability, Total(q.troves), q.redemptionPool,
        Fee(q.price.value, issuance + q.issuance), q.redemptionFee, baseRate)
  }

  // More troves are to be closed than liquidation has left.
  predicate Oversampled(st: State, d: Draws)
    requires Inv(st) && InRangeDraws(d)
  {
    InvTroves(st);
    d.closeCount > |AfterLiquidation(st.troves, d)|
  }

  ghost function Next(lib: Library, policy: bool, st: State, d: Draws): Outcome
    requires Faithful(lib) && Inv(st) && InRangeDraws(d)
  {
    InvTroves(st);
    if Oversampled(st, d) then Outcome.Crashed(State(AfterLiquidation(st.troves, d), st.last))
    else
      match Stabilize(lib, AfterOpening(st.troves, d), PeriodConditions(st, d, policy))
      case Crashed => Outcome.Crashed(State(AfterOpening(st.troves, d), st.last))
      case Quoted(q) =>
        // a price that is not finite comes only with a negative liquidity pool
        if q.liquidity < 0.0 || !q.price.Finite? then Stopped(State(q.troves, st.last))
        else
          var st' := State(q.troves, NewRow(st, d, policy, q));
          if q.price.value < 0.0 then Stopped(st') else Running(st')
  }

  // What one quote of the stabiliser makes of the period.
  lemma NextOfQuote(lib: Library, policy: bool, st: State, d: Draws, q: Quote)
    requires Faithful(lib) && Inv(st) && InRangeDraws(d) && AllSound(st.troves)
    requires Stabilize(lib, AfterOpening(st.troves, d), PeriodConditions(st, d, policy)) == Quoted(q)
    requires !Oversampled(st, d)
    requires q.liquidity >= 0.0 ==> q.price.Finite? && q.price.value >= 0.0
    ensures Next(lib, policy, st, d) ==
            if q.liquidity < 0.0 then Stopped(State(q.troves, st.last))
            else Running(State(q.troves, NewRow(st, d, policy, q)))
  {
  }

  // The pools no longer cover the troves: the stability pool exceeds the supply.
  predicate Uncovered(st: State, d: Draws)
    requires Inv(st) && InRangeDraws(d)
  {
    InvTroves(st);
    Total(AfterOpening(st.troves, d)) < d.stability
  }

  // --- Whole-step safety ---

  // A period crashes exactly when more troves are to be closed than there are troves whose
  // collateral is still worth 110% of their debt. Otherwise it stops exactly when the
  // stability pool exceeds the supply. It always leaves a safe table, and when it runs to
  // the end, a state with all the same guarantees.
  lemma StepIsSafe(lib: Library, policy: bool, st: State, d: Draws)
    requires Faithful(lib) && Inv(st) && InRangeDraws(d)
    ensures Next(lib, policy, st, d).Crashed? <==> d.closeCount > CountSafe(st.troves, d.etherPrice)
    ensures Next(lib, policy, st, d).Stopped? <==>
            d.closeCount <= CountSafe(st.troves, d.etherPrice) && Uncovered(st, d)
    ensures Next(lib, policy, st, d).Running? ==> Inv(Next(lib, policy, st, d).state)
    ensures AllSafe(Next(lib, policy, st, d).state.troves, d.etherPrice)
    ensures Next(lib, policy, st, d).Running? ==>
            var st' := Next(lib, policy, st, d).state;
            WithinShare(st'.last.redemptionPool, d.redemptionRatio, Total(st'.troves) + st'.last.redemptionPool)
  {
    InvTroves(st);
    SurvivorCount(st.troves, d.etherPrice);
    if !Oversampled(st, d) {
      CoveredStep(lib, policy, st, d);
    }
  }

  lemma CoveredStep(lib: Library, policy: bool, st: State, d: Draws)
    requires Faithful(lib) && Inv(st) && InRangeDraws(d) && !Oversampled(st, d)
    ensures !Next(lib, policy, st, d).Crashed?
    ensures Next(lib, policy, st, d).Stopped? <==> Uncovered(st, d)
    ensures Next(lib, policy, st, d).Running? ==> Inv(Next(lib, policy, st, d).state)
    ensures AllSafe(Next(lib, policy, st, d).state.troves, d.etherPrice)
    ensures Next(lib, policy, st, d).Running? ==>
            var st' := Next(lib, policy, st, d).state;
            WithinShare(st'.last.redemptionPool, d.redemptionRatio, Total(st'.troves) + st'.last.redemptionPool)
  {
    InvTroves(st);
    var ts, c := AfterOpening(st.troves, d), PeriodConditions(st, d, policy);
    RateNonNegative(st, policy);
    if Uncovered(st, d) {
      NoLiquidityOutcome(lib, ts, c);
    } else {
      StabilizerIsSafe(lib, ts, c);
    }
  }

  // The change of the supply that the named events of the period add up to.
  ghost function SupplyMoves(lib: Library, policy: bool, st: State, d: Draws): real
    requires Inv(st) && InRangeDraws(d)
  {
    InvTroves(st);
    TableMoves(st, d) + MintedBy(lib, AfterOpening(st.troves, d), PeriodConditions(st, d, policy))
  }

  // The quote a period ends with, and what it makes of the period.
  lemma QuoteOfPeriod(lib: Library, policy: bool, st: State, d: Draws) returns (q: Quote)
    requires Faithful(lib) && Inv(st) && InRangeDraws(d)
    ensures AllSound(st.troves)
    ensures Stabilize(lib, AfterOpening(st.troves, d), PeriodConditions(st, d, policy)) == Quoted(q)
    ensures q.liquidity >= 0.0 ==> q.price.Finite? && q.price.value >= 0.0
    ensures !Oversampled(st, d) ==>
            Next(lib, policy, st, d) ==
            if q.liquidity < 0.0 then Stopped(State(q.troves, st.last))
            else Running(State(q.troves, NewRow(st, d, policy, q)))
  {
    InvTroves(st);
    var ts, c := AfterOpening(st.troves, d), PeriodConditions(st, d, policy);
    if Total(ts) < d.stability {
      NoLiquidityOutcome(lib, ts, c);
    } else {
      StabilizerIsSafe(lib, ts, c);
    }
    q := Stabilize(lib, ts, c).quote;
    if !Oversampled(st, d) {
      NextOfQuote(lib, policy, st, d, q);
    }
  }

  // Debt is neither created nor destroyed except by the named events of the period.
  lemma StepConservesSupply(lib: Library, policy: bool, st: State, d: Draws)
    requires Faithful(lib) && Inv(st) && InRangeDraws(d)
    requires Next(lib, policy, st, d).Running?
    ensures var row := Next(lib, policy, st, d).state.last;
            row.supply == st.last.supply + SupplyMoves(lib, policy, st, d) - row.redemptionPool
  {
    var q := RunningQuote(lib, policy, st, d);
    StepIsSafe(lib, policy, st, d);
    SurvivorCount(st.troves, d.etherPrice);
    TableConserves(st, d);
    StabilizerConserves(lib, AfterOpening(st.troves, d), PeriodConditions(st, d, policy));
  }

  // What the period does to the supply before the stabiliser.
  function TableMoves(st: State, d: Draws): real
    requires AllSound(st.troves) && InRangeDraws(d)
  {
    var open, closed, adjusted :=
      AfterLiquidation(st.troves, d), AfterClosing(st.troves, d), AfterAdjusting(st.troves, d);
    - Total(Liquidated(MarkToMarket(st.troves, d.etherPrice)))
    - Total(DroppedRows(open, d.sample(|open|)))
    + Raised(closed, adjusted) - Raised(adjusted, closed)
    + Total(OpenAll(d.entrants, d.etherPrice))
  }

  lemma TableConserves(st: State, d: Draws)
    requires AllSound(st.troves) && InRangeDraws(d) && d.closeCount <= |AfterLiquidation(st.troves, d)|
    ensures Total(AfterOpening(st.troves, d)) == Total(st.troves) + TableMoves(st, d)
  {
    LiquidationKeepsExactlySafe(st.troves, d.etherPrice);
    var open := AfterLiquidation(st.troves, d);
    ClosingSplitsDebt(open, d.sample(|open|));
    RaisedAndLowered(AfterClosing(st.troves, d), AfterAdjusting(st.troves, d));
    TotalAppend(AfterAdjusting(st.troves, d), OpenAll(d.entrants, d.etherPrice));
  }

  // All debt the period creates.
  ghost function CreatedDebt(lib: Library, policy: bool, st: State, d: Draws): real
    requires Inv(st) && InRangeDraws(d)
  {
    InvTroves(st);
    OpenedDebt(st, d) + MintedBy(lib, AfterOpening(st.troves, d), PeriodConditions(st, d, policy))
  }

  // The fee of the row is its price times the rate times the debt.
  predicate ChargedFor(row: Row, rate: real, debt: real) {
    row.issuanceFee == row.price * (rate * debt)
  }

  // The issuance fee of the period is charged for all debt created.
  lemma IssuanceFeeIsForNewDebt(lib: Library, policy: bool, st: State, d: Draws)
    requires Faithful(lib) && Inv(st) && InRangeDraws(d)
    requires Next(lib, policy, st, d).Running?
    ensures ChargedFor(Next(lib, policy, st, d).state.last, Rate(st, policy), CreatedDebt(lib, policy, st, d))
  {
    var q := QuoteOfPeriod(lib, policy, st, d);
    QuoteIssuance(lib, policy, st, d, q);
    RowCharges(st, d, policy, q, CreatedDebt(lib, policy, st, d));
  }

  lemma RowCharges(st: State, d: Draws, policy: bool, q: Quote, debt: real)
    requires Inv(st) && InRangeDraws(d) && q.price.Finite?
    requires IssuanceFees(st, d, policy) + q.issuance == Fee(Rate(st, policy), debt)
    ensures ChargedFor(NewRow(st, d, policy, q), Rate(st, policy), debt)
  {
  }

  lemma QuoteIssuance(lib: Library, policy: bool, st: State, d: Draws, q: Quote)
    requires Faithful(lib) && Inv(st) && InRangeDraws(d) && AllSound(st.troves)
    requires Stabilize(lib, AfterOpening(st.troves, d), PeriodConditions(st, d, policy)) == Quoted(q)
    requires q.liquidity >= 0.0
    ensures IssuanceFees(st, d, policy) + q.issuance == Fee(Rate(st, policy), CreatedDebt(lib, policy, st, d))
  {
    var ts, c := AfterOpening(st.troves, d), PeriodConditions(st, d, policy);
    if Total(ts) < c.stability {
      NoLiquidityOutcome(lib, ts, c);
    }
    StabilizerIssuance(lib, ts, c);
    IssuanceWithMinted(st, d, policy, q.issuance, MintedBy(lib, ts, c));
  }

  lemma IssuanceWithMinted(st: State, d: Draws, policy: bool, issuance: real, minted: real)
    requires Inv(st) && InRangeDraws(d) && issuance == Fee(Rate(st, policy), minted)
    ensures IssuanceFees(st, d, policy) + issuance == Fee(Rate(st, policy), OpenedDebt(st, d) + minted)
  {
    IssuanceOfPeriod(st, d, policy);
    Distribute(Rate(st, policy), OpenedDebt(st, d), minted);
  }

  function OpenedDebt(st: State, d: Draws): real
    requires Inv(st) && InRangeDraws(d)
  {
    InvTroves(st);
    Raised(AfterClosing(st.troves, d), AfterAdjusting(st.troves, d)) + Total(OpenAll(d.entrants, d.etherPrice))
  }

  lemma IssuanceOfPeriod(st: State, d: Draws, policy: bool)
    requires Inv(st) && InRangeDraws(d)
    ensures IssuanceFees(st, d, policy) == Fee(Rate(st, policy), OpenedDebt(st, d))
  {
    InvTroves(st);
    var closed, newcomers := AfterClosing(st.troves, d), OpenAll(d.entrants, d.etherPrice);
    AllAdjustFees(closed, d, Rate(st, policy));
    OpenFeesAreForNewDebt(d, Rate(st, policy), |d.entrants|);
    assert newcomers[..|d.entrants|] == newcomers;
    Distribute(Rate(st, policy), Raised(closed, AfterAdjusting(st.troves, d)), Total(newcomers));
  }

  lemma AllAdjustFees(ts: seq<Trove>, d: Draws, rate: real)
    requires AllFreshSafe(ts, d.etherPrice) && d.etherPrice > 0.0
    ensures AdjustFees(ts, d, rate, |ts|) == Fee(rate, Raised(ts, AdjustAll(ts, d.etherPrice, d.pick, d.adjustRatio)))
  {
    var after := AdjustAll(ts, d.etherPrice, d.pick, d.adjustRatio);
    AdjustFeesAreForIncreases(ts, d, rate, |ts|);
    assert ts[..|ts|] == ts && after[..|ts|] == after;
  }

  lemma StabilizerIssuance(lib: Library, ts: seq<Trove>, c: Conditions)
    requires Ready(lib, ts, c) && Total(ts) >= c.stability
    ensures Stabilize(lib, ts, c).Quoted?
    ensures Stabilize(lib, ts, c).quote.issuance == Fee(c.rateIssuance, MintedBy(lib, ts, c))
  {
    if RawPrice(lib, ts, c).Above(CeilingPrice(c)) {
      CeilingOutcome(lib, ts, c);
      CeilingPays(lib, ts, c);
    } else if RawPrice(lib, ts, c).Below(FloorPrice(c)) {
      var plan := PlanOutcome(lib, ts, c);
    } else {
      BandOutcome(lib, ts, c);
    }
  }

  // --- What a period does to each trove and to the accounts ---

  // The collateral, at this price, is worth the owner's ratio of the debt, give or take the
  // owner's inattention.
  predicate LeftAlone(t: Trove, etherPrice: real) {
    var value, target := etherPrice * t.etherQuantity, t.crInitial * t.supply;
    target * (1.0 - t.inattention) <= value <= target * (1.0 + 2.0 * t.inattention)
  }

  // A trove before a period and after adjusting. The owner's data stays; where the
  // collateral is off the owner's ratio by more than that, either the debt or the collateral
  // is put right, by the draw.
  predicate AdjustedFrom(was: Trove, now: Trove, etherPrice: real, draw: real, ratio: real) {
    && now.etherPrice == etherPrice && now.crInitial == was.crInitial && now.inattention == was.inattention
    && now.crCurrent * was.supply == etherPrice * was.etherQuantity
    && (if LeftAlone(was, etherPrice) || draw < ratio then now.supply == was.supply
        else now.crInitial * now.supply == etherPrice * was.etherQuantity)
    && (if LeftAlone(was, etherPrice) || draw >= ratio then now.etherQuantity == was.etherQuantity
        else etherPrice * now.etherQuantity == was.crInitial * was.supply)
  }

  // Where a trove that survives liquidation stands in the table then, and where one that is
  // not closed stands after closing.
  function PlaceAfterLiquidation(ts: seq<Trove>, d: Draws, i: nat): nat
    requires i < |ts|
  {
    CountSafe(ts[..i], d.etherPrice)
  }

  function PlaceAfterClosing(drops: set<nat>, place: nat): int {
    place - |DropsBelow(drops, place)|
  }

  // Every trove that is worth 110% of its debt at the new price and is not in the sample is
  // found in its place, adjusted by that place's draw.
  lemma PeriodKeepsTrove(ts: seq<Trove>, d: Draws, i: nat)
    requires AllSound(ts) && InRangeDraws(d) && i < |ts|
    requires Covered(ts[i], d.etherPrice)
    requires PlaceAfterLiquidation(ts, d, i) !in d.sample(CountSafe(ts, d.etherPrice))
    ensures var place := PlaceAfterClosing(d.sample(CountSafe(ts, d.etherPrice)), PlaceAfterLiquidation(ts, d, i));
            && 0 <= place < |AfterAdjusting(ts, d)|
            && AdjustedFrom(ts[i], AfterAdjusting(ts, d)[place], d.etherPrice, d.pick(place), d.adjustRatio)
  {
    var k := StandsAfterClosing(ts, d, i);
    MarkKeepsOne(ts[i], d.etherPrice);
    MarkedIsAdjusted(ts[i], AfterClosing(ts, d)[k], d.etherPrice, d.pick(k), d.adjustRatio);
    AdjustedAt(ts, d, k);
  }

  lemma StandsAfterClosing(ts: seq<Trove>, d: Draws, i: nat) returns (k: nat)
    requires AllSound(ts) && InRangeDraws(d) && i < |ts| && Covered(ts[i], d.etherPrice)
    requires PlaceAfterLiquidation(ts, d, i) !in d.sample(CountSafe(ts, d.etherPrice))
    ensures k == PlaceAfterClosing(d.sample(CountSafe(ts, d.etherPrice)), PlaceAfterLiquidation(ts, d, i))
    ensures k < |AfterClosing(ts, d)| && AfterClosing(ts, d)[k] == Mark(ts[i], d.etherPrice)
  {
    SurvivorCount(ts, d.etherPrice);
    SurvivorRow(ts, d.etherPrice, i);
    var open, place := AfterLiquidation(ts, d), PlaceAfterLiquidation(ts, d, i);
    KeptRow(open, d.sample(|open|), place);
    k := PlaceAfterClosing(d.sample(|open|), place);
  }

  lemma MarkKeepsOne(t: Trove, etherPrice: real)
    requires Sound(t)
    ensures var now := Mark(t, etherPrice);
            && now.supply == t.supply && now.etherQuantity == t.etherQuantity
            && now.crInitial == t.crInitial && now.inattention == t.inattention && now.etherPrice == etherPrice
  {
    MarkKeeps([t], etherPrice, 0);
  }

  lemma AdjustedAt(ts: seq<Trove>, d: Draws, k: nat)
    requires AllSound(ts) && InRangeDraws(d) && k < |AfterClosing(ts, d)|
    ensures k < |AfterAdjusting(ts, d)|
    ensures AfterAdjusting(ts, d)[k] == Adjust(AfterClosing(ts, d)[k], d.pick(k), d.adjustRatio)
  {
  }

  lemma MarkedIsAdjusted(was: Trove, marked: Trove, etherPrice: real, draw: real, ratio: real)
    requires Sound(was) && Safe(marked, etherPrice) && Fresh(marked) && etherPrice > 0.0
    requires marked.supply == was.supply && marked.etherQuantity == was.etherQuantity
    requires marked.crInitial == was.crInitial && marked.inattention == was.inattention
    ensures AdjustedFrom(was, Adjust(marked, draw, ratio), etherPrice, draw, ratio)
  {
    OverdueIsNotLeft(was, marked, etherPrice);
    FreshMeans(marked);
    AdjustKeeps(marked, draw, ratio);
    MarkedSame(was, marked, Adjust(marked, draw, ratio), etherPrice);
    if Overdue(marked) {
      PutRight(marked, draw, ratio);
    }
    SameIsAdjusted(was, marked, Adjust(marked, draw, ratio), etherPrice, draw, ratio);
  }

  // The same data but for the ether price and the recorded ratio.
  predicate SameButMarked(was: Trove, now: Trove, etherPrice: real) {
    && now.etherPrice == etherPrice && now.crInitial == was.crInitial && now.inattention == was.inattention
    && now.crCurrent * was.supply == etherPrice * was.etherQuantity
  }

  lemma MarkedSame(was: Trove, marked: Trove, now: Trove, etherPrice: real)
    requires marked.supply == was.supply && marked.etherQuantity == was.etherQuantity
    requires marked.crCurrent * marked.supply == marked.etherPrice * marked.etherQuantity
    requires now.etherPrice == marked.etherPrice == etherPrice && now.crCurrent == marked.crCurrent
    requires now.crInitial == was.crInitial && now.inattention == was.inattention
    ensures SameButMarked(was, now, etherPrice)
  {
  }

  lemma SameIsAdjusted(was: Trove, marked: Trove, now: Trove, etherPrice: real, draw: real, ratio: real)
    requires SameButMarked(was, now, etherPrice) && marked.etherPrice == etherPrice
    requires marked.supply == was.supply && marked.etherQuantity == was.etherQuantity
    requires marked.crInitial == was.crInitial
    requires LeftAlone(was, etherPrice) ==> now.supply == was.supply && now.etherQuantity == was.etherQuantity
    requires !LeftAlone(was, etherPrice) ==> IsPutRight(marked, now, draw >= ratio)
    ensures AdjustedFrom(was, now, etherPrice, draw, ratio)
  {
  }

  lemma OverdueIsNotLeft(was: Trove, marked: Trove, etherPrice: real)
    requires Sound(was) && Sound(marked) && Fresh(marked) && marked.etherPrice == etherPrice
    requires marked.supply == was.supply && marked.etherQuantity == was.etherQuantity
    requires marked.crInitial == was.crInitial && marked.inattention == was.inattention
    ensures Overdue(marked) <==> !LeftAlone(was, etherPrice)
  {
    OverdueMeans(marked);
    assert LeftAlone(was, etherPrice) <==> LeftAlone(marked, etherPrice);
  }

  // The debt, or else the collateral, now has the owner's ratio to the other.
  predicate IsPutRight(t: Trove, now: Trove, byDebt: bool) {
    if byDebt then now.etherQuantity == t.etherQuantity && now.crInitial * now.supply == t.etherPrice * t.etherQuantity
    else now.supply == t.supply && t.etherPrice * now.etherQuantity == t.crInitial * t.supply
  }

  lemma PutRight(t: Trove, draw: real, ratio: real)
    requires Safe(t, t.etherPrice) && Fresh(t) && t.etherPrice > 0.0 && Overdue(t)
    ensures IsPutRight(t, Adjust(t, draw, ratio), draw >= ratio)
  {
    AdjustHitsTarget(t, draw, ratio);
    AdjustKeeps(t, draw, ratio);
    OnTargetMeans(Adjust(t, draw, ratio));
  }

  lemma FreshMeans(t: Trove)
    requires Sound(t) && Fresh(t)
    ensures t.crCurrent * t.supply == t.etherPrice * t.etherQuantity
  {
    QuotientOrder(t.etherPrice * t.etherQuantity, t.supply, t.crCurrent);
  }

  lemma OnTargetMeans(t: Trove)
    requires Sound(t) && OnTarget(t)
    ensures t.crInitial * t.supply == t.etherPrice * t.etherQuantity
  {
    QuotientOrder(t.etherPrice * t.etherQuantity, t.supply, t.crInitial);
  }

  // A trove as it was drawn: its ratio is exact and fresh.
  predicate OpenedAs(t: Trove, draw: Opening, etherPrice: real) {
    && t.etherPrice == etherPrice && t.etherQuantity == draw.etherQuantity && t.inattention == draw.inattention
    && t.crInitial == draw.crRatio == t.crCurrent
    && draw.crRatio * t.supply == etherPrice * draw.etherQuantity
  }

  lemma OpenIsAsDrawn(draw: Opening, etherPrice: real)
    requires InRange(draw) && etherPrice > 0.0
    ensures OpenedAs(Open(draw, etherPrice), draw, etherPrice)
  {
    OpenIsSafe(draw, etherPrice);
  }

  // Behind the troves that are left, one is opened for each draw.
  lemma PeriodOpensTroves(ts: seq<Trove>, d: Draws, j: nat)
    requires AllSound(ts) && InRangeDraws(d) && d.closeCount <= CountSafe(ts, d.etherPrice) && j < |d.entrants|
    ensures |AfterAdjusting(ts, d)| == CountSafe(ts, d.etherPrice) - d.closeCount
    ensures |AfterOpening(ts, d)| == |AfterAdjusting(ts, d)| + |d.entrants|
    ensures AfterOpening(ts, d)[..|AfterAdjusting(ts, d)|] == AfterAdjusting(ts, d)
    ensures OpenedAs(AfterOpening(ts, d)[|AfterAdjusting(ts, d)| + j], d.entrants[j], d.etherPrice)
  {
    CountAfterClosing(ts, d);
    OpeningAppends(ts, d);
    OpenIsAsDrawn(d.entrants[j], d.etherPrice);
  }

  lemma CountAfterClosing(ts: seq<Trove>, d: Draws)
    requires AllSound(ts) && InRangeDraws(d) && d.closeCount <= CountSafe(ts, d.etherPrice)
    ensures |AfterClosing(ts, d)| == CountSafe(ts, d.etherPrice) - d.closeCount
  {
    SurvivorCount(ts, d.etherPrice);
    var open := AfterLiquidation(ts, d);
    ClosingSplitsDebt(open, d.sample(|open|));
  }

  lemma OpeningAppends(ts: seq<Trove>, d: Draws)
    requires AllSound(ts) && InRangeDraws(d)
    ensures |AfterAdjusting(ts, d)| == |AfterClosing(ts, d)|
    ensures AfterOpening(ts, d) == AfterAdjusting(ts, d) + OpenAll(d.entrants, d.etherPrice)
  {
  }

  // What a period leaves that does not run to its end: after a crash the table as it was
  // liquidated, otherwise as it was after opening; and no row in either case.
  lemma PeriodEndsEarly(lib: Library, policy: bool, st: State, d: Draws)
    requires Faithful(lib) && Inv(st) && InRangeDraws(d) && !Next(lib, policy, st, d).Running?
    ensures AllSound(st.troves)
    ensures var r := Next(lib, policy, st, d);
            && r.state.last == st.last
            && r.state.troves == if r.Crashed? then Survivors(MarkToMarket(st.troves, d.etherPrice))
                                 else AfterOpening(st.troves, d)
  {
    StepIsSafe(lib, policy, st, d);
    var q := QuoteOfPeriod(lib, policy, st, d);
    SurvivorCount(st.troves, d.etherPrice);
    if !Oversampled(st, d) {
      StoppedTable(lib, policy, st, d, q);
    }
  }

  lemma StoppedTable(lib: Library, policy: bool, st: State, d: Draws, q: Quote)
    requires Faithful(lib) && Inv(st) && InRangeDraws(d) && Uncovered(st, d) && AllSound(st.troves)
    requires Stabilize(lib, AfterOpening(st.troves, d), PeriodConditions(st, d, policy)) == Quoted(q)
    ensures q.troves == AfterOpening(st.troves, d)
  {
    NoLiquidityOutcome(lib, AfterOpening(st.troves, d), PeriodConditions(st, d, policy));
  }

  // The rate of a period, written out.
  predicate IsRate(rate: real, st: State, policy: bool) {
    if policy then
      Total(st.troves) != 0.0
      && rate == 0.98 * st.last.baseRate + 0.5 * (st.last.redemptionPool / Total(st.troves))
    else
      rate == 0.01
  }

  // The accounts of a period that runs to its end: exogenous values as drawn, the supply of
  // its table, fees at its rate, and a price of at most 1.1 plus that rate.
  predicate Recorded(st: State, d: Draws, policy: bool, rate: real, next: State) {
    var row := next.last;
    && row.etherPrice == d.etherPrice && row.stability == d.stability && row.supply == Total(next.troves)
    && 0.0 < row.price <= 1.1 + rate && IsShare(row.redemptionFee, rate, row.redemptionPool)
    && row.baseRate == if policy then rate else st.last.baseRate
  }

  lemma PeriodIsRecorded(lib: Library, policy: bool, st: State, d: Draws)
    requires Faithful(lib) && Inv(st) && InRangeDraws(d) && Next(lib, policy, st, d).Running?
    ensures IsRate(Rate(st, policy), st, policy)
    ensures Recorded(st, d, policy, Rate(st, policy), Next(lib, policy, st, d).state)
  {
    var q := RunningQuote(lib, policy, st, d);
    StabilizerCharges(lib, AfterOpening(st.troves, d), PeriodConditions(st, d, policy));
  }

  predicate LawAt(price: real, pool: real, previous: real, market: real) {
    Pow(price, 20) * pool == Pow(previous, 20) * market
  }

  // The price law between this period and the last one, as the two rows record it.
  predicate LawBetween(st: State, d: Draws, next: State) {
    LawAt(next.last.price, Total(next.troves) - d.stability, st.last.price, Grown(st.last.liquidity, d.growth))
  }

  lemma LawUnfolds(price: real, pool: real, c: Conditions, market: real)
    requires market == c.market
    ensures PriceLaw(price, pool, c) <==> LawAt(price, pool, c.previousPrice, market)
  {
  }

  // A row records the price and what the law is about.
  lemma LawOfRow(st: State, d: Draws, policy: bool, q: Quote)
    requires Inv(st) && InRangeDraws(d) && q.price.Finite?
    ensures LawBetween(st, d, State(q.troves, NewRow(st, d, policy, q))) <==>
            PriceLaw(q.price.value, Total(q.troves) - d.stability, PeriodConditions(st, d, policy))
  {
    LawUnfolds(q.price.value, Total(q.troves) - d.stability, PeriodConditions(st, d, policy),
               Grown(st.last.liquidity, d.growth));
  }

  // The recorded price is the price law's at the supply left unless a capped redemption took
  // something, and it is below the floor exactly when the redemption was capped.
  predicate PricedByLaw(st: State, d: Draws, rate: real, capped: bool, next: State) {
    && (LawBetween(st, d, next) <==> !(capped && d.redemptionRatio > 0.0))
    && (next.last.price < 1.0 - rate <==> capped)
  }

  lemma PeriodPriceLaw(lib: Library, policy: bool, st: State, d: Draws)
    requires Faithful(lib) && Inv(st) && InRangeDraws(d) && Next(lib, policy, st, d).Running?
    ensures AllSound(st.troves)
    ensures PricedByLaw(st, d, Rate(st, policy),
                        Capped(lib, AfterOpening(st.troves, d), PeriodConditions(st, d, policy)),
                        Next(lib, policy, st, d).state)
  {
    var q := RunningQuote(lib, policy, st, d);
    StabilizerQuotesByLaw(lib, AfterOpening(st.troves, d), PeriodConditions(st, d, policy));
    RowOfLaw(lib, policy, st, d, q);
  }

  lemma RowOfLaw(lib: Library, policy: bool, st: State, d: Draws, q: Quote)
    requires Inv(st) && InRangeDraws(d) && AllSound(st.troves)
    requires QuotedByLaw(lib, AfterOpening(st.troves, d), PeriodConditions(st, d, policy), q)
    ensures PricedByLaw(st, d, Rate(st, policy),
                        Capped(lib, AfterOpening(st.troves, d), PeriodConditions(st, d, policy)),
                        State(q.troves, NewRow(st, d, policy, q)))
  {
    RowByLaw(st, d, policy, q, Capped(lib, AfterOpening(st.troves, d), PeriodConditions(st, d, policy)));
  }

  lemma RowByLaw(st: State, d: Draws, policy: bool, q: Quote, capped: bool)
    requires Inv(st) && InRangeDraws(d) && q.price.Finite?
    requires PriceLaw(q.price.value, Total(q.troves) - d.stability, PeriodConditions(st, d, policy)) <==>
             !(capped && d.redemptionRatio > 0.0)
    requires q.price.value < FloorPrice(PeriodConditions(st, d, policy)) <==> capped
    ensures PricedByLaw(st, d, Rate(st, policy), capped, State(q.troves, NewRow(st, d, policy, q)))
  {
    LawOfRow(st, d, policy, q);
  }

  // --- What is stale within and between periods ---

  // Adjusting leaves the recorded ratio of an overdue trove behind, and no other.
  lemma AdjustedRatio(t: Trove, p: real, ratio: real)
    requires Safe(t, t.etherPrice) && t.etherPrice > 0.0 && Fresh(t)
    ensures var r := Adjust(t, p, ratio);
            && Sound(r) && ActualRatio(r) == RatioLeft(r)
            && (Overdue(r) <==> Overdue(t)) && (Fresh(r) <==> !Overdue(t))
  {
    AdjustHitsTarget(t, p, ratio);
    OverdueIsOff(t);
    SameDeviation(t, Adjust(t, p, ratio));
    if Overdue(t) {
      RatioOfTarget(Adjust(t, p, ratio));
    } else {
      RatioOfFresh(t);
    }
  }

  lemma SameDeviation(t: Trove, r: Trove)
    requires Sound(t) && Sound(r)
    requires r.crCurrent == t.crCurrent && r.crInitial == t.crInitial && r.inattention == t.inattention
    ensures Overdue(r) <==> Overdue(t)
  {
    var unit := t.crInitial * t.inattention;
    ProductPositive(t.crInitial, t.inattention);
    QuotientOrder(t.crCurrent - t.crInitial, unit, 0.0);
    DeviationIs(r, unit, Deviation(t));
  }

  lemma RatioOfTarget(t: Trove)
    requires Sound(t) && OnTarget(t) && Overdue(t) && t.crCurrent != t.crInitial
    ensures ActualRatio(t) == RatioLeft(t) && !Fresh(t)
  {
  }

  lemma RatioOfFresh(t: Trove)
    requires Sound(t) && Fresh(t) && !Overdue(t)
    ensures ActualRatio(t) == RatioLeft(t)
  {
  }

  lemma OverdueIsOff(t: Trove)
    requires Sound(t)
    ensures t.crCurrent == t.crInitial ==> !Overdue(t)
  {
    ProductPositive(t.crInitial, t.inattention);
    QuotientOrder(t.crCurrent - t.crInitial, t.crInitial * t.inattention, 0.0);
  }

  lemma OpenedRatio(d: Opening, etherPrice: real)
    requires InRange(d) && etherPrice > 0.0
    ensures var r := Open(d, etherPrice); Sound(r) && ActualRatio(r) == RatioLeft(r)
  {
    OpenIsSafe(d, etherPrice);
    OverdueIsOff(Open(d, etherPrice));
  }

  lemma StaleRows(st: State, d: Draws)
    requires Inv(st) && InRangeDraws(d) && AllSound(st.troves)
    ensures StaleWhereOverdue(AfterOpening(st.troves, d))
  {
    var closed, ts := AfterClosing(st.troves, d), AfterOpening(st.troves, d);
    forall i | 0 <= i < |ts|
      ensures Sound(ts[i]) && ActualRatio(ts[i]) == RatioLeft(ts[i])
    {
      if i < |closed| {
        AdjustedRatio(closed[i], d.pick(i), d.adjustRatio);
      } else {
        OpenedRatio(d.entrants[i - |closed|], d.etherPrice);
      }
    }
  }

  // The quote of a period that runs to its end.
  lemma RunningQuote(lib: Library, policy: bool, st: State, d: Draws) returns (q: Quote)
    requires Faithful(lib) && Inv(st) && InRangeDraws(d) && Next(lib, policy, st, d).Running?
    ensures AllSound(st.troves) && Total(AfterOpening(st.troves, d)) >= d.stability
    ensures Stabilize(lib, AfterOpening(st.troves, d), PeriodConditions(st, d, policy)) == Quoted(q)
    ensures q.price.Finite? && Next(lib, policy, st, d).state == State(q.troves, NewRow(st, d, policy, q))
  {
    StepIsSafe(lib, policy, st, d);
    q := QuoteOfPeriod(lib, policy, st, d);
  }

  // The redemption of a period, known before it, closes the riskiest troves exactly when
  // none of those it pays for was adjusted past one that it does not.
  lemma PeriodClosesRiskiestIff(lib: Library, policy: bool, st: State, d: Draws)
    requires Faithful(lib) && Inv(st) && InRangeDraws(d) && AllSound(st.troves)
    requires Next(lib, policy, st, d).Running?
    ensures var ts := AfterOpening(st.troves, d);
            var planned := PlannedRedemption(lib, ts, PeriodConditions(st, d, policy));
            && Next(lib, policy, st, d).state.last.redemptionPool == planned
            && AllSound(lib.sort(ts))
            && (ClosesRiskiest(lib.sort(ts), planned) <==> NoneOvertakesAt(lib.sort(ts), planned))
  {
    var q := RunningQuote(lib, policy, st, d);
    StaleRows(st, d);
    StabilizerClosesRiskiestIff(lib, AfterOpening(st.troves, d), PeriodConditions(st, d, policy));
  }

  // The market that a period starts from.
  function Market(st: State, d: Draws, policy: bool): real
    requires Inv(st) && InRangeDraws(d)
  {
    PeriodConditions(st, d, policy).market
  }

  // The pool that should have been recorded.
  function RealPool(st: State): real {
    Total(st.troves) - st.last.stability
  }

  function Grown(pool: real, growth: real): real {
    pool * growth
  }

  // A period with a redemption records a liquidity pool that is too large by what was
  // redeemed, and the next period takes its market from that.
  lemma MarketAfterRedemption(lib: Library, policy: bool, st: State, d: Draws, following: Draws)
    requires Faithful(lib) && Inv(st) && InRangeDraws(d) && InRangeDraws(following)
    requires Next(lib, policy, st, d).Running?
    ensures var next := Next(lib, policy, st, d).state;
            && Inv(next)
            && next.last.liquidity == RealPool(next) + next.last.redemptionPool
            && (Market(next, following, policy) == Grown(RealPool(next), following.growth)
                <==> next.last.redemptionPool == 0.0)
  {
    StepIsSafe(lib, policy, st, d);
    RecordedPool(lib, policy, st, d);
    var next := Next(lib, policy, st, d).state;
    MarketOfPool(next, following, policy, RealPool(next));
  }

  lemma RecordedPool(lib: Library, policy: bool, st: State, d: Draws)
    requires Faithful(lib) && Inv(st) && InRangeDraws(d) && Next(lib, policy, st, d).Running?
    ensures var next := Next(lib, policy, st, d).state;
            next.last.liquidity == RealPool(next) + next.last.redemptionPool
  {
    var q := QuoteOfPeriod(lib, policy, st, d);
    LiquidityIsCurrentIff(lib, AfterOpening(st.troves, d), PeriodConditions(st, d, policy));
  }

  lemma MarketOfPool(st: State, d: Draws, policy: bool, pool: real)
    requires Inv(st) && InRangeDraws(d)
    ensures Market(st, d, policy) == Grown(pool, d.growth) <==> st.last.liquidity == pool
  {
    ProductOrder(st.last.liquidity, pool, d.growth);
  }

  // --- Whole runs ---

  // The first period opens ten troves and splits their debt evenly between the pools.
  const INITIAL_OPEN: nat := 10

  function InitialState(etherPrice: real, ds: seq<Opening>): State
    requires AllInRange(ds)
  {
    var ts := OpenAll(ds, etherPrice);
    State(ts, Row(1.0, etherPrice, 0.5 * Total(ts), 0.5 * Total(ts), Total(ts), 0.0,
                  OpenFees(Draws(etherPrice, 0, n => {}, 0.0, i => 0.0, ds, 0.0, 0.0, 0.0), FIXED_RATE, |ds|) * 1.0,
                  0.0, 0.0))
  }

  // The first row: the price is 1, the supply is split evenly between the two pools, and the
  // fee is a hundredth of the debt opened. Troves are opened in the order of the draws.
  lemma InitialAccounts(etherPrice: real, ds: seq<Opening>, j: nat)
    requires AllInRange(ds) && etherPrice > 0.0 && j < |ds|
    ensures var st := InitialState(etherPrice, ds);
            var supply, row, now := Total(st.troves), st.last, st.troves[j];
            && row.price == 1.0 && row.etherPrice == etherPrice && row.supply == supply
            && 2.0 * row.liquidity == supply == 2.0 * row.stability
            && row.redemptionPool == 0.0 == row.redemptionFee && row.baseRate == 0.0
            && 100.0 * row.issuanceFee == supply
            && |st.troves| == |ds| && now.etherQuantity == ds[j].etherQuantity && now.crInitial == ds[j].crRatio
            && ds[j].crRatio * now.supply == etherPrice * ds[j].etherQuantity
  {
    var opening := Draws(etherPrice, 0, n => {}, 0.0, i => 0.0, ds, 0.0, 0.0, 0.0);
    OpenFeesAreForNewDebt(opening, 0.01, |ds|);
    assert OpenAll(ds, etherPrice)[..|ds|] == OpenAll(ds, etherPrice);
    OpenIsSafe(ds[j], etherPrice);
  }

  lemma InitialStateIsSafe(etherPrice: real, ds: seq<Opening>)
    requires AllInRange(ds) && |ds| == INITIAL_OPEN && etherPrice > 0.0
    ensures Inv(InitialState(etherPrice, ds))
  {
    OpenedAreSafe(ds, etherPrice);
    var ts := OpenAll(ds, etherPrice);
    forall i | 0 <= i < |ts|
      ensures Sound(ts[i])
    {
      assert Safe(ts[i], etherPrice);
    }
    TotalNonNegative(ts);
  }

  ghost function Run(lib: Library, policy: bool, st: State, ds: seq<Draws>): Outcome
    requires Faithful(lib) && Inv(st) && forall i :: 0 <= i < |ds| ==> InRangeDraws(ds[i])
    decreases |ds|
  {
    if ds == [] then Running(st)
    else
      StepIsSafe(lib, policy, st, ds[0]);
      var r := Next(lib, policy, st, ds[0]);
      if r.Running? then Run(lib, policy, r.state, ds[1..]) else r
  }

  // The run from the period with this index on.
  ghost function RestOfRun(lib: Library, policy: bool, st: State, ds: seq<Draws>, index: nat): Outcome
    requires Faithful(lib) && Inv(st) && forall i :: 0 <= i < |ds| ==> InRangeDraws(ds[i])
    requires index <= |ds|
  {
    Run(lib, policy, st, ds[index..])
  }

  lemma WholeRun(lib: Library, policy: bool, st: State, ds: seq<Draws>)
    requires Faithful(lib) && Inv(st) && forall i :: 0 <= i < |ds| ==> InRangeDraws(ds[i])
    ensures RestOfRun(lib, policy, st, ds, 0) == Run(lib, policy, st, ds)
  {
    assert ds[0..] == ds;
  }

  lemma RunOver(lib: Library, policy: bool, st: State, ds: seq<Draws>)
    requires Faithful(lib) && Inv(st) && forall i :: 0 <= i < |ds| ==> InRangeDraws(ds[i])
    ensures RestOfRun(lib, policy, st, ds, |ds|) == Running(st)
  {
  }

  lemma RunFrom(lib: Library, policy: bool, st: State, ds: seq<Draws>, index: nat)
    requires Faithful(lib) && Inv(st) && forall i :: 0 <= i < |ds| ==> InRangeDraws(ds[i])
    requires index < |ds|
    ensures var r := Next(lib, policy, st, ds[index]);
            && (r.Running? ==> Inv(r.state))
            && RestOfRun(lib, policy, st, ds, index) ==
               if r.Running? then RestOfRun(lib, policy, r.state, ds, index + 1) else r
  {
    StepIsSafe(lib, policy, st, ds[index]);
    assert ds[index..][0] == ds[index] && ds[index..][1..] == ds[index + 1..];
  }

  lemma RunStep(lib: Library, policy: bool, st: State, ds: seq<Draws>, next: State)
    requires Faithful(lib) && Inv(st) && forall i :: 0 <= i < |ds| ==> InRangeDraws(ds[i])
    requires ds != [] && Next(lib, policy, st, ds[0]) == Running(next) && Inv(next)
    ensures Run(lib, policy, st, ds) == Run(lib, policy, next, ds[1..])
  {
  }

  lemma RunStop(lib: Library, policy: bool, st: State, ds: seq<Draws>)
    requires Faithful(lib) && Inv(st) && forall i :: 0 <= i < |ds| ==> InRangeDraws(ds[i])
    requires ds != [] && !Next(lib, policy, st, ds[0]).Running?
    ensures !Run(lib, policy, st, ds).Running?
  {
  }

  // The run ends in the period with index `n`, by a crash exactly when that one closes more
  // troves than it has safe ones; and it leaves a table that is safe at that period's price.
  ghost predicate EndsSafely(lib: Library, policy: bool, st: State, ds: seq<Draws>, n: nat)
    requires Faithful(lib) && Inv(st) && forall i :: 0 <= i < |ds| ==> InRangeDraws(ds[i])
    requires n < |ds|
  {
    var before, r := Run(lib, policy, st, ds[..n]), Run(lib, policy, st, ds);
    && before.Running? && Inv(before.state)
    && r == Next(lib, policy, before.state, ds[n]) && !r.Running?
    && (r.Crashed? <==> ds[n].closeCount > CountSafe(before.state.troves, ds[n].etherPrice))
    && AllSafe(r.state.troves, ds[n].etherPrice)
  }

  // Every run, of any length and with any draws in range, completes in a safe state or ends
  // safely in one of its periods.
  lemma {:induction false} RunIsSafe(lib: Library, policy: bool, st: State, ds: seq<Draws>) returns (n: nat)
    requires Faithful(lib) && Inv(st) && forall i :: 0 <= i < |ds| ==> InRangeDraws(ds[i])
    ensures n <= |ds| && SafeUpTo(lib, policy, st, ds, n)
    decreases |ds|
  {
    n := 0;
    if ds != [] && Next(lib, policy, st, ds[0]).Running? {
      var next := RunningState(lib, policy, st, ds[0]);
      var rest := RunIsSafe(lib, policy, next, ds[1..]);
      n := rest + 1;
      SafeOnePeriodMore(lib, policy, st, ds, next, rest);
    } else if ds != [] {
      EndsNow(lib, policy, st, ds);
    }
  }

  // The run completes in a safe state, or ends safely in the period with index `n`.
  ghost predicate SafeUpTo(lib: Library, policy: bool, st: State, ds: seq<Draws>, n: nat)
    requires Faithful(lib) && Inv(st) && forall i :: 0 <= i < |ds| ==> InRangeDraws(ds[i])
    requires n <= |ds|
  {
    if n == |ds| then Run(lib, policy, st, ds).Running? && Inv(Run(lib, policy, st, ds).state)
    else EndsSafely(lib, policy, st, ds, n)
  }

  lemma SafeOnePeriodMore(lib: Library, policy: bool, st: State, ds: seq<Draws>, next: State, rest: nat)
    requires Faithful(lib) && Inv(st) && forall i :: 0 <= i < |ds| ==> InRangeDraws(ds[i])
    requires rest + 1 <= |ds| && Next(lib, policy, st, ds[0]) == Running(next) && Inv(next)
    requires SafeUpTo(lib, policy, next, ds[1..], rest)
    ensures SafeUpTo(lib, policy, st, ds, rest + 1)
  {
    RunStep(lib, policy, st, ds, next);
    if rest + 1 < |ds| {
      EndsLater(lib, policy, st, ds, next, rest);
    }
  }

  lemma RunningState(lib: Library, policy: bool, st: State, d: Draws) returns (next: State)
    requires Faithful(lib) && Inv(st) && InRangeDraws(d) && Next(lib, policy, st, d).Running?
    ensures Next(lib, policy, st, d) == Running(next) && Inv(next)
  {
    StepIsSafe(lib, policy, st, d);
    next := Next(lib, policy, st, d).state;
  }

  lemma EndsNow(lib: Library, policy: bool, st: State, ds: seq<Draws>)
    requires Faithful(lib) && Inv(st) && forall i :: 0 <= i < |ds| ==> InRangeDraws(ds[i])
    requires ds != [] && !Next(lib, policy, st, ds[0]).Running?
    ensures EndsSafely(lib, policy, st, ds, 0)
  {
    StepIsSafe(lib, policy, st, ds[0]);
    assert ds[..0] == [];
  }

  lemma EndsLater(lib: Library, policy: bool, st: State, ds: seq<Draws>, next: State, rest: nat)
    requires Faithful(lib) && Inv(st) && forall i :: 0 <= i < |ds| ==> InRangeDraws(ds[i])
    requires rest + 1 < |ds| && Next(lib, policy, st, ds[0]) == Running(next) && Inv(next)
    requires EndsSafely(lib, policy, next, ds[1..], rest)
    ensures EndsSafely(lib, policy, st, ds, rest + 1)
  {
    RunStep(lib, policy, st, ds, next);
    RunStart(lib, policy, st, ds, next, rest);
    assert ds[1..][rest] == ds[rest + 1];
  }

  lemma RunStart(lib: Library, policy: bool, st: State, ds: seq<Draws>, next: State, rest: nat)
    requires Faithful(lib) && Inv(st) && forall i :: 0 <= i < |ds| ==> InRangeDraws(ds[i])
    requires rest + 1 < |ds| && Next(lib, policy, st, ds[0]) == Running(next) && Inv(next)
    ensures Run(lib, policy, st, ds[..rest + 1]) == Run(lib, policy, next, ds[1..][..rest])
  {
    var first := ds[..rest + 1];
    assert first[1..] == ds[1..][..rest];
    RunStep(lib, policy, st, first, next);
  }

  // A price that leaves no trove safe crashes the period as soon as one is to be closed.
  lemma {:induction false} NoneSafe(ts: seq<Trove>, etherPrice: real)
    requires forall i :: 0 <= i < |ts| ==> !Covered(ts[i], etherPrice)
    ensures CountSafe(ts, etherPrice) == 0
  {
    if ts != [] {
      NoneSafe(ts[1..], etherPrice);
    }
  }

  const TEN_AT_150: seq<Opening> := seq(INITIAL_OPEN, i => Opening(1.5, 1.5, 1.0))

  const HALVED_PRICE: Draws := Draws(0.5, 1, n => {0}, 0.0, i => 0.0, [], 0.0, 1.0, 0.0)

  // The simulation can crash in its first period: ten troves at 150%, the ether price
  // halved, and one trove to close.
  lemma HalvedPriceCrashes(lib: Library, policy: bool)
    requires Faithful(lib)
    ensures AllInRange(TEN_AT_150) && Inv(InitialState(1.0, TEN_AT_150)) && InRangeDraws(HALVED_PRICE)
    ensures Run(lib, policy, InitialState(1.0, TEN_AT_150), [HALVED_PRICE]).Crashed?
  {
    InitialStateIsSafe(1.0, TEN_AT_150);
    NoneSafe(InitialState(1.0, TEN_AT_150).troves, 0.5);
    StepIsSafe(lib, policy, InitialState(1.0, TEN_AT_150), HALVED_PRICE);
  }

  // The last recorded price is positive and at most 1.1 plus the rate of its period.
  predicate PriceCapped(st: State, policy: bool) {
    0.0 < st.last.price <= 1.1 + if policy then st.last.baseRate else 0.01
  }

  lemma {:induction false} PriceStaysCapped(lib: Library, policy: bool, st: State, ds: seq<Draws>)
    requires Faithful(lib) && Inv(st) && forall i :: 0 <= i < |ds| ==> InRangeDraws(ds[i])
    requires PriceCapped(st, policy)
    ensures Run(lib, policy, st, ds).Running? ==> PriceCapped(Run(lib, policy, st, ds).state, policy)
    decreases |ds|
  {
    if ds != [] && Next(lib, policy, st, ds[0]).Running? {
      var next := RunningState(lib, policy, st, ds[0]);
      PeriodIsRecorded(lib, policy, st, ds[0]);
      RunStep(lib, policy, st, ds, next);
      PriceStaysCapped(lib, policy, next, ds[1..]);
    } else if ds != [] {
      RunStop(lib, policy, st, ds);
    }
  }

  // In every run of the simulation no price exceeds 1.1 plus the rate of its period, which
  // is the base rate with the policy and 0.01 without.
  lemma PriceIsCapped(lib: Library, policy: bool, etherPrice: real, openings: seq<Opening>, ds: seq<Draws>)
    requires Faithful(lib) && AllInRange(openings) && |openings| == INITIAL_OPEN && etherPrice > 0.0
    requires forall i :: 0 <= i < |ds| ==> InRangeDraws(ds[i])
    ensures Inv(InitialState(etherPrice, openings))
    ensures var r := Run(lib, policy, InitialState(etherPrice, openings), ds);
            r.Running? ==> 0.0 < r.state.last.price <= 1.1 + if policy then r.state.last.baseRate else 0.01
  {
    InitialStateIsSafe(etherPrice, openings);
    PriceStaysCapped(lib, policy, InitialState(etherPrice, openings), ds);
  }

  // --- The base rate ---

  // What redeeming a share `q` of the supply takes, relative to what it leaves.
  function Leverage(q: real): real
    requires q < 1.0
  {
    q / (1.0 - q)
  }

  ghost predicate RateBounded(st: State, q: real)
    requires q < 1.0
  {
    && Inv(st)
    && WithinShare(st.last.redemptionPool, Leverage(q), Total(st.troves))
    && st.last.baseRate <= 25.0 * Leverage(q)
  }

  lemma ShareLeft(redeemed: real, left: real, ratio: real, q: real)
    requires WithinShare(redeemed, ratio, left + redeemed) && left > 0.0 && ratio <= q < 1.0
    ensures WithinShare(redeemed, Leverage(q), left)
  {
    var Q := Leverage(q);
    QuotientOrder(q, 1.0 - q, Q);
    assert Q * (1.0 - q) == q;
    if ratio < q {
      ProductOrder(ratio, q, left + redeemed);
    }
    assert redeemed * (1.0 - q) <= q * left;
    assert (Q * left) * (1.0 - q) == q * left by {
      assert (Q * left) * (1.0 - q) == (Q * (1.0 - q)) * left;
    }
    ProductOrder(Q * left, redeemed, 1.0 - q);
  }

  lemma BaseRateStep(st: State, q: real)
    requires 0.0 <= q < 1.0 && RateBounded(st, q)
    ensures 0.0 <= BaseRate(st) <= 25.0 * Leverage(q)
  {
    RateNonNegative(st, true);
    QuotientOrder(st.last.redemptionPool, Total(st.troves), Leverage(q));
  }

  lemma StepKeepsRateBounded(lib: Library, policy: bool, st: State, d: Draws, q: real)
    requires Faithful(lib) && 0.0 <= q < 1.0 && RateBounded(st, q)
    requires InRangeDraws(d) && d.redemptionRatio <= q
    ensures Next(lib, policy, st, d).Running? ==> RateBounded(Next(lib, policy, st, d).state, q)
  {
    if Next(lib, policy, st, d).Running? {
      StepIsSafe(lib, policy, st, d);
      BaseRateStep(st, q);
      RateRecorded(lib, policy, st, d);
      var st' := Next(lib, policy, st, d).state;
      ShareLeft(st'.last.redemptionPool, Total(st'.troves), d.redemptionRatio, q);
    }
  }

  lemma RateRecorded(lib: Library, policy: bool, st: State, d: Draws)
    requires Faithful(lib) && Inv(st) && InRangeDraws(d) && Next(lib, policy, st, d).Running?
    ensures Next(lib, policy, st, d).state.last.baseRate == if policy then BaseRate(st) else st.last.baseRate
  {
  }

  // The base rate rises exactly while it is below 25 times the share redeemed, and rests
  // exactly there.
  lemma BaseRateMoves(st: State)
    requires Inv(st)
    ensures var resting := 25.0 * ShareRedeemed(st);
            && (BaseRate(st) > st.last.baseRate <==> st.last.baseRate < resting)
            && (BaseRate(st) == st.last.baseRate <==> st.last.baseRate == resting)
  {
    var share := ShareRedeemed(st);
    assert BaseRate(st) - st.last.baseRate == 0.02 * (25.0 * share - st.last.baseRate);
  }

  // With redemptions of at most a share `q` of the pool, the base rate of every run stays
  // in [0, 25 q / (1 - q)], however long the run.
  lemma {:induction false} BaseRateIsBounded(lib: Library, policy: bool, st: State, ds: seq<Draws>, q: real)
    requires Faithful(lib) && 0.0 <= q < 1.0 && RateBounded(st, q)
    requires forall i :: 0 <= i < |ds| ==> InRangeDraws(ds[i]) && ds[i].redemptionRatio <= q
    ensures var r := Run(lib, policy, st, ds);
            r.Running? ==> RateBounded(r.state, q) && 0.0 <= r.state.last.baseRate <= 25.0 * Leverage(q)
    decreases |ds|
  {
    if ds != [] {
      StepIsSafe(lib, policy, st, ds[0]);
      StepKeepsRateBounded(lib, policy, st, ds[0], q);
      var r := Next(lib, policy, st, ds[0]);
      if r.Running? {
        BaseRateIsBounded(lib, policy, r.state, ds[1..], q);
      }
    }
  }

  // The same from the start of the simulation.
  lemma BaseRateFromStart(
    lib: Library, policy: bool, etherPrice: real, openings: seq<Opening>, ds: seq<Draws>, q: real)
    requires Faithful(lib) && AllInRange(openings) && |openings| == INITIAL_OPEN && etherPrice > 0.0
    requires 0.0 <= q < 1.0
    requires forall i :: 0 <= i < |ds| ==> InRangeDraws(ds[i]) && ds[i].redemptionRatio <= q
    ensures Inv(InitialState(etherPrice, openings))
    ensures var r := Run(lib, policy, InitialState(etherPrice, openings), ds);
            r.Running? ==> 0.0 <= r.state.last.baseRate <= 25.0 * Leverage(q)
  {
    var st := InitialState(etherPrice, openings);
    InitialStateIsSafe(etherPrice, openings);
    QuotientOrder(q, 1.0 - q, 0.0);
    ProductPositive(Total(st.troves), Leverage(q));
    BaseRateIsBounded(lib, policy, st, ds, q);
  }

  // The shares redeemed by the periods that the base rates of a run look back to.
  ghost function SharesRedeemed(lib: Library, st: State, ds: seq<Draws>): seq<real>
    requires Faithful(lib) && Inv(st) && forall i :: 0 <= i < |ds| ==> InRangeDraws(ds[i])
    decreases |ds|
  {
    if ds == [] then []
    else
      StepIsSafe(lib, true, st, ds[0]);
      var r := Next(lib, true, st, ds[0]);
      [ShareRedeemed(st)] + if r.Running? then SharesRedeemed(lib, r.state, ds[1..]) else []
  }

  // A rate after `n` decays of 2%.
  function Decayed(rate: real, n: nat): real {
    Pow(0.98, n) * rate
  }

  // Half of each share, decayed once for every share after it.
  function HalvedShares(shares: seq<real>): real {
    if shares == [] then 0.0
    else Decayed(0.5 * shares[0], |shares| - 1) + HalvedShares(shares[1..])
  }

  predicate RateFrom(r: Outcome, rate: real, shares: seq<real>) {
    r.Running? ==> r.state.last.baseRate == Decayed(rate, |shares|) + HalvedShares(shares)
  }

  lemma DecayFirst(r: Outcome, rate: real, share: real, rest: seq<real>)
    requires RateFrom(r, MovedRate(rate, share), rest)
    ensures RateFrom(r, rate, [share] + rest)
  {
    var power, shares := Pow(0.98, |rest|), [share] + rest;
    assert shares[1..] == rest;
    assert power * (0.98 * rate + 0.5 * share) == (0.98 * power) * rate + power * (0.5 * share);
  }

  // The base rate of the policy after any run is the first one decayed by 2% a period, plus
  // half of every share redeemed on the way, decayed ever since.
  lemma {:induction false} BaseRateClosedForm(lib: Library, st: State, ds: seq<Draws>)
    requires Faithful(lib) && Inv(st) && forall i :: 0 <= i < |ds| ==> InRangeDraws(ds[i])
    ensures RateFrom(Run(lib, true, st, ds), st.last.baseRate, SharesRedeemed(lib, st, ds))
    decreases |ds|
  {
    if ds != [] && Next(lib, true, st, ds[0]).Running? {
      var next := StepRaisesRate(lib, st, ds[0]);
      BaseRateClosedForm(lib, next, ds[1..]);
      RunStep(lib, true, st, ds, next);
      SharesStep(lib, st, ds, next);
      DecayFirst(Run(lib, true, st, ds), st.last.baseRate, ShareRedeemed(st), SharesRedeemed(lib, next, ds[1..]));
    } else if ds != [] {
      RunStop(lib, true, st, ds);
    } else {
      RateAtRest(Running(st), st.last.baseRate);
    }
  }

  lemma {:induction false} OneShareAPeriod(lib: Library, st: State, ds: seq<Draws>)
    requires Faithful(lib) && Inv(st) && forall i :: 0 <= i < |ds| ==> InRangeDraws(ds[i])
    ensures Run(lib, true, st, ds).Running? ==> |SharesRedeemed(lib, st, ds)| == |ds|
    decreases |ds|
  {
    if ds != [] {
      StepIsSafe(lib, true, st, ds[0]);
      var r := Next(lib, true, st, ds[0]);
      if r.Running? {
        OneShareAPeriod(lib, r.state, ds[1..]);
      }
    }
  }

  lemma StepRaisesRate(lib: Library, st: State, d: Draws) returns (next: State)
    requires Faithful(lib) && Inv(st) && InRangeDraws(d) && Next(lib, true, st, d).Running?
    ensures Next(lib, true, st, d) == Running(next) && Inv(next)
    ensures next.last.baseRate == MovedRate(st.last.baseRate, ShareRedeemed(st))
  {
    StepIsSafe(lib, true, st, d);
    RateRecorded(lib, true, st, d);
    next := Next(lib, true, st, d).state;
  }

  lemma SharesStep(lib: Library, st: State, ds: seq<Draws>, next: State)
    requires Faithful(lib) && Inv(st) && forall i :: 0 <= i < |ds| ==> InRangeDraws(ds[i])
    requires ds != [] && Next(lib, true, st, ds[0]) == Running(next) && Inv(next)
    ensures SharesRedeemed(lib, st, ds) == [ShareRedeemed(st)] + SharesRedeemed(lib, next, ds[1..])
  {
  }

  lemma RateAtRest(r: Outcome, rate: real)
    requires r.Running? ==> r.state.last.baseRate == rate
    ensures RateFrom(r, rate, [])
  {
  }

  predicate NoneNegative(shares: seq<real>) {
    forall i :: 0 <= i < |shares| ==> shares[i] >= 0.0
  }

  predicate AllZero(shares: seq<real>) {
    forall i :: 0 <= i < |shares| ==> shares[i] == 0.0
  }

  lemma {:induction false} SharesNonNegative(lib: Library, st: State, ds: seq<Draws>)
    requires Faithful(lib) && Inv(st) && forall i :: 0 <= i < |ds| ==> InRangeDraws(ds[i])
    ensures NoneNegative(SharesRedeemed(lib, st, ds))
    decreases |ds|
  {
    if ds != [] {
      QuotientOrder(st.last.redemptionPool, Total(st.troves), 0.0);
      StepIsSafe(lib, true, st, ds[0]);
      var r := Next(lib, true, st, ds[0]);
      if r.Running? {
        SharesNonNegative(lib, r.state, ds[1..]);
      }
    }
  }

  lemma {:induction false} NoHalvedShares(shares: seq<real>)
    requires NoneNegative(shares)
    ensures HalvedShares(shares) >= 0.0
    ensures HalvedShares(shares) == 0.0 <==> AllZero(shares)
  {
    if shares != [] {
      var rest := shares[1..];
      NoHalvedShares(rest);
      ProductPositive(Pow(0.98, |rest|), 0.5 * shares[0]);
      assert AllZero(shares) <==> shares[0] == 0.0 && AllZero(rest) by {
        assert shares == [shares[0]] + rest;
      }
    }
  }

  // So the base rate has decayed by exactly 2% a period if and only if no period redeemed.
  lemma BaseRateDecaysIff(lib: Library, st: State, ds: seq<Draws>)
    requires Faithful(lib) && Inv(st) && forall i :: 0 <= i < |ds| ==> InRangeDraws(ds[i])
    requires Run(lib, true, st, ds).Running?
    ensures var rate := Run(lib, true, st, ds).state.last.baseRate;
            && rate >= Decayed(st.last.baseRate, |ds|)
            && (rate == Decayed(st.last.baseRate, |ds|) <==> AllZero(SharesRedeemed(lib, st, ds)))
  {
    BaseRateClosedForm(lib, st, ds);
    OneShareAPeriod(lib, st, ds);
    SharesNonNegative(lib, st, ds);
    NoHalvedShares(SharesRedeemed(lib, st, ds));
  }

  // --- The simulation as the source runs it ---

  class Simulation {
    const lib: Library
    const policy: bool
    var troves: seq<Trove>
    var data: seq<Row>

    function Current(): State
      requires data != []
      reads this
    {
      State(troves, data[|data| - 1])
    }

    ghost predicate Valid()
      reads this
    {
      Faithful(lib) && data != [] && Inv(Current())
    }

    constructor (lib: Library, policy: bool, etherPrice: real, ds: seq<Opening>)
      requires Faithful(lib) && AllInRange(ds) && |ds| == INITIAL_OPEN && etherPrice > 0.0
      ensures Valid() && Current() == InitialState(etherPrice, ds) && |data| == 1
      ensures this.lib == lib && this.policy == policy
    {
      InitialStateIsSafe(etherPrice, ds);
      this.lib, this.policy := lib, policy;
      var st := InitialState(etherPrice, ds);
      troves, data := st.troves, [st.last];
    }

    // Rewrites the table row by row.
    method AdjustTroves(d: Draws, rate: real) returns (issuance: real)
      requires Priced(troves, d.etherPrice)
      modifies this`troves
      ensures troves == AdjustAll(old(troves), d.etherPrice, d.pick, d.adjustRatio)
      ensures issuance == AdjustFees(old(troves), d, rate, |old(troves)|)
    {
      issuance := 0.0;
      ghost var target := AdjustAll(troves, d.etherPrice, d.pick, d.adjustRatio);
      for i := 0 to |troves|
        invariant |troves| == |old(troves)|
        invariant troves[..i] == target[..i] && troves[i..] == old(troves)[i..]
        invariant issuance == AdjustFees(old(troves), d, rate, i)
      {
        var t := troves[i];
        assert t == old(troves)[i];
        issuance := issuance + AdjustFee(t, d.pick(i), d.adjustRatio, rate);
        troves := troves[i := Adjust(t, d.pick(i), d.adjustRatio)];
        assert troves[..i + 1] == troves[..i] + [troves[i]];
        assert target[..i + 1] == target[..i] + [target[i]];
      }
    }

    // Appends one row per draw.
    method OpenTroves(d: Draws, rate: real) returns (issuance: real)
      requires AllInRange(d.entrants)
      modifies this`troves
      ensures troves == old(troves) + OpenAll(d.entrants, d.etherPrice)
      ensures issuance == OpenFees(d, rate, |d.entrants|)
    {
      issuance := 0.0;
      ghost var target := OpenAll(d.entrants, d.etherPrice);
      for i := 0 to |d.entrants|
        invariant troves == old(troves) + target[..i]
        invariant issuance == OpenFees(d, rate, i)
      {
        var t := Open(d.entrants[i], d.etherPrice);
        issuance := issuance + Fee(rate, t.supply);
        troves := troves + [t];
        assert target[..i + 1] == target[..i] + [target[i]];
      }
      assert target[..|d.entrants|] == target;
    }

    // Liquidates, closes, adjusts and opens. Sampling too many rows raises, with the
    // liquidated table in place.
    method ReshapeTable(d: Draws, rate: real) returns (ok: bool, issuance: real)
      requires AllSound(troves) && InRangeDraws(d)
      modifies this`troves
      ensures ok == (d.closeCount <= |AfterLiquidation(old(troves), d)|)
      ensures troves == if ok then AfterOpening(old(troves), d) else AfterLiquidation(old(troves), d)
      ensures var closed := AfterClosing(old(troves), d);
              ok ==> issuance == AdjustFees(closed, d, rate, |closed|) + OpenFees(d, rate, |d.entrants|)
    {
      troves := AfterLiquidation(troves, d);
      if d.closeCount > |troves| {
        return false, 0.0;
      }
      troves := DropRows(troves, d.sample(|troves|));
      assert AllFreshSafe(troves, d.etherPrice) by {
        assert troves == AfterClosing(old(troves), d);
      }
      var adjusting := AdjustTroves(d, rate);
      var opening := OpenTroves(d, rate);
      ok, issuance := true, adjusting + opening;
    }

    // One period. A period that does not run to its end leaves the table changed and no row.
    method Step(d: Draws) returns (r: Outcome)
      requires Valid() && InRangeDraws(d)
      modifies this`troves, this`data
      ensures data != []
      ensures r == Next(lib, policy, old(Current()), d) && r.state == Current()
      ensures data == if r.Running? then old(data) + [Current().last] else old(data)
    {
      ghost var st := Current();
      InvTroves(st);
      var baseRate := if policy then Rate(Current(), policy) else Current().last.baseRate;
      ghost var expected := QuoteOfPeriod(lib, policy, st, d);
      var ok, issuance, result := ReshapeAndStabilize(d);
      if !ok {
        return Outcome.Crashed(Current());
      }
      r := Settle(d, result.quote, issuance, baseRate);
    }

    method ReshapeAndStabilize(d: Draws) returns (ok: bool, issuance: real, result: PriceStabilizer.Result)
      requires Valid() && InRangeDraws(d) && AllSound(troves)
      modifies this`troves
      ensures ok == !Oversampled(old(Current()), d)
      ensures troves == if ok then AfterOpening(old(troves), d) else AfterLiquidation(old(troves), d)
      ensures ok ==> && issuance == IssuanceFees(old(Current()), d, policy)
                     && result == Stabilize(lib, AfterOpening(old(troves), d),
                                            PeriodConditions(old(Current()), d, policy))
    {
      var c, rate := PeriodConditions(Current(), d, policy), Rate(Current(), policy);
      ok, issuance := ReshapeTable(d, rate);
      if !ok {
        return false, 0.0, PriceStabilizer.Crashed;
      }
      result := RunStabilizer(lib, troves, c);
    }

    // What a quote leaves of the period.
    method Settle(d: Draws, q: Quote, issuance: real, baseRate: real) returns (r: Outcome)
      requires data != [] && (q.liquidity >= 0.0 ==> q.price.Finite?)
      modifies this`troves, this`data
      ensures data != [] && r.state == Current()
      ensures q.liquidity < 0.0 ==> r == Stopped(State(q.troves, old(Current()).last)) && data == old(data)
      ensures q.liquidity >= 0.0 ==>
                var here := State(q.troves, RowOf(d, q, issuance, baseRate));
                && r == (if q.price.value < 0.0 then Stopped(here) else Running(here))
                && data == old(data) + [here.last]
    {
      troves := q.troves;
      if q.liquidity < 0.0 {
        return Stopped(Current());
      }
      data := data + [RowOf(d, q, issuance, baseRate)];
      var here := Current();
      r := if q.price.value < 0.0 then Stopped(here) else Running(here);
    }

    method Simulate(ds: seq<Draws>) returns (r: Outcome)
      requires Valid() && forall i :: 0 <= i < |ds| ==> InRangeDraws(ds[i])
      modifies this`troves, this`data
      ensures data != []
      ensures r == Run(lib, policy, old(Current()), ds) && r.state == Current()
      ensures old(data) <= data
      ensures r.Running? ==> Valid() && |data| == |old(data)| + |ds|
    {
      ghost var outcome := RestOfRun(lib, policy, Current(), ds, 0);
      r := Running(Current());
      var index := 0;
      WholeRun(lib, policy, Current(), ds);
      while r.Running? && index < |ds|
        invariant index <= |ds| && data != [] && old(data) <= data && r.state == Current()
        invariant r.Running? ==> Inv(r.state) && outcome == RestOfRun(lib, policy, r.state, ds, index)
        invariant r.Running? ==> |data| == |old(data)| + index
        invariant !r.Running? ==> outcome == r
        decreases |ds| - index
      {
        r := StepOfRun(ds, index);
        index := index + 1;
      }
      if r.Running? {
        RunOver(lib, policy, r.state, ds);
      }
    }

    // One iteration of the loop, within a run.
    method StepOfRun(ds: seq<Draws>, index: nat) returns (r: Outcome)
      requires Valid() && index < |ds| && forall i :: 0 <= i < |ds| ==> InRangeDraws(ds[i])
      modifies this`troves, this`data
      ensures data != [] && r.state == Current()
      ensures r.Running? ==> Inv(r.state)
      ensures RestOfRun(lib, policy, old(Current()), ds, index) ==
              if r.Running? then RestOfRun(lib, policy, r.state, ds, index + 1) else r
      ensures data == if r.Running? then old(data) + [Current().last] else old(data)
    {
      RunFrom(lib, policy, Current(), ds, index);
      r := Step(ds[index]);
    }
  }
}
