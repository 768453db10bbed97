/**
 `price_stabilizer` of the macro model: the market price from the price law, ceiling
 arbitrage by minting and floor arbitrage by redemption.
 */
module PriceStabilizer {
  import opened Powers
  import opened Troves
  import opened Redemption

  /**
   What the model takes from numpy and pandas: the real power with exponent `1/delta`,
   and `sort_values`, whose order among equal keys is not specified.
   */
  datatype Library = Library(root: real -> real, sort: seq<Trove> -> seq<Trove>)

  // `x ** delta`, with delta = -20.
  function DeltaPower(x: real): real
    requires x > 0.0
  {
    1.0 / Pow(x, 20)
  }

  ghost predicate Faithful(lib: Library) {
    && (forall x :: x > 0.0 ==> lib.root(x) > 0.0 && DeltaPower(lib.root(x)) == x)
    && (forall ts :: multiset(lib.sort(ts)) == multiset(ts) && SortedByCR(lib.sort(ts)))
  }

  // A float: 0.0 ** (1/delta) is infinite and the power of a negative number is not a number.
  datatype Price = Finite(value: real) | Infinite | NotANumber {
    predicate Above(bound: real) {
      Infinite? || (Finite? && value > bound)
    }

    predicate Below(bound: real) {
      Finite? && value < bound
    }
  }

  // Everything the stabiliser reads besides the trove table; `market` is the previous
  // liquidity pool times its growth factor.
  datatype Conditions = Conditions(
    previousPrice: real,
    market: real,
    stability: real,
    etherPrice: real,
    rateIssuance: real,
    rateRedemption: real,
    redemptionRatio: real
  )

  datatype Quote = Quote(
    price: Price,
    liquidity: real,
    troves: seq<Trove>,
    issuance: real,
    redemptionFee: real,
    redempted: nat,
    redemptionPool: real
  )

  // `Crashed` is the IndexError of the redemption loop.
  datatype Result = Crashed | Quoted(quote: Quote)

  function MarketPrice(lib: Library, c: Conditions, pool: real): Price
    requires c.market > 0.0
  {
    if pool > 0.0 then Finite(c.previousPrice * lib.root(pool / c.market))
    else if pool == 0.0 then Infinite
    else NotANumber
  }

  // The liquidity pool at which the price law quotes `price`.
  function PoolAt(c: Conditions, price: real): real
    requires c.previousPrice > 0.0 && price > 0.0
  {
    assert price / c.previousPrice > 0.0 by { QuotientOrder(price, c.previousPrice, 0.0); }
    c.market * DeltaPower(price / c.previousPrice)
  }

  predicate InRangeConditions(c: Conditions) {
    && c.previousPrice > 0.0 && c.market > 0.0 && c.etherPrice > 0.0 && c.stability >= 0.0
    && c.rateIssuance >= 0.0 && c.rateRedemption >= 0.0 && 0.0 <= c.redemptionRatio < 1.0
  }

  function CeilingPrice(c: Conditions): real {
    1.1 + c.rateIssuance
  }

  function FloorPrice(c: Conditions): real {
    1.0 - c.rateRedemption
  }

  function Fee(rate: real, amount: real): real {
    rate * amount
  }

  // The single trove the ceiling arbitrageurs open.
  function CeilingTrove(minted: real, etherPrice: real): Trove
    requires etherPrice > 0.0
  {
    Trove(etherPrice, minted * 1.1 / etherPrice, 1.1, minted, 0.1, 1.1)
  }

  // State after the first `if`.
  function AfterCeiling(lib: Library, ts: seq<Trove>, c: Conditions): Quote
    requires InRangeConditions(c)
  {
    var pool := Total(ts) - c.stability;
    var price := MarketPrice(lib, c, pool);
    if price.Above(CeilingPrice(c)) then
      var wanted := c.stability + PoolAt(c, CeilingPrice(c));
      var minted := wanted - Total(ts);
      Quote(Finite(CeilingPrice(c)), wanted - c.stability, ts + [CeilingTrove(minted, c.etherPrice)],
            Fee(c.rateIssuance, minted), 0.0, 0, 0.0)
    else
      Quote(price, pool, ts, 0.0, 0.0, 0, 0.0)
  }

  // `supply_diff`: what redemption would have to remove to lift the price to the floor.
  function SupplyDiff(supply: real, c: Conditions): real
    requires InRangeConditions(c) && FloorPrice(c) > 0.0
  {
    supply - (c.stability + PoolAt(c, FloorPrice(c)))
  }

  // What the floor arbitrageurs redeem and the price they leave. The amount is capped at
  // a fraction of the liquidity pool, and a capped redemption quotes the price of the
  // pool as it was before.
  datatype Plan = Plan(price: Price, redeemed: real)

  function FloorPlan(lib: Library, supply: real, liquidity: real, c: Conditions): Plan
    requires InRangeConditions(c) && FloorPrice(c) > 0.0
  {
    if SupplyDiff(supply, c) < c.redemptionRatio * liquidity
    then Plan(Finite(FloorPrice(c)), SupplyDiff(supply, c))
    else Plan(MarketPrice(lib, c, liquidity), c.redemptionRatio * liquidity)
  }

  // Shutting down the riskiest troves according to a plan.
  function CarryOut(lib: Library, q: Quote, plan: Plan, c: Conditions): Result
    requires c.etherPrice > 0.0
  {
    match Redeem(lib.sort(q.troves), plan.redeemed, c.etherPrice)
    case OutOfTroves => Crashed
    case Redeemed(left, count) =>
      Quoted(q.(price := plan.price, troves := left, redempted := count,
                redemptionPool := plan.redeemed, redemptionFee := Fee(c.rateRedemption, plan.redeemed)))
  }

  // State after the second `if`.
  function AfterFloor(lib: Library, supply: real, q: Quote, c: Conditions): Result
    requires InRangeConditions(c)
    requires q.price.Finite? ==> q.price.value > 0.0
  {
    if q.price.Below(FloorPrice(c)) then CarryOut(lib, q, FloorPlan(lib, supply, q.liquidity, c), c)
    else Quoted(q)
  }

  function Stabilize(lib: Library, ts: seq<Trove>, c: Conditions): Result
    requires InRangeConditions(c)
    requires forall x :: x > 0.0 ==> lib.root(x) > 0.0
  {
    var q := AfterCeiling(lib, ts, c);
    assert q.price.Finite? ==> q.price.value > 0.0 by { CeilingStagePositive(lib, ts, c); }
    AfterFloor(lib, Total(ts), q, c)
  }

  lemma CeilingStagePositive(lib: Library, ts: seq<Trove>, c: Conditions)
    requires InRangeConditions(c)
    requires forall x :: x > 0.0 ==> lib.root(x) > 0.0
    ensures var p := AfterCeiling(lib, ts, c).price; p.Finite? ==> p.value > 0.0
  {
    var pool := Total(ts) - c.stability;
    if pool > 0.0 {
      QuotientOrder(pool, c.market, 0.0);
      ProductPositive(c.previousPrice, lib.root(pool / c.market));
    }
  }

  // The stabiliser as the source runs it, with the redemption loop in place.
  method RunStabilizer(lib: Library, ts: seq<Trove>, c: Conditions) returns (r: Result)
    requires InRangeConditions(c)
    requires forall x :: x > 0.0 ==> lib.root(x) > 0.0
    ensures r == Stabilize(lib, ts, c)
  {
    CeilingStagePositive(lib, ts, c);
    var q := AfterCeiling(lib, ts, c);
    if !q.price.Below(FloorPrice(c)) {
      return Quoted(q);
    }
    var plan := FloorPlan(lib, Total(ts), q.liquidity, c);
    var left := RedeemCheapest(lib.sort(q.troves), plan.redeemed, c.etherPrice);
    if left.OutOfTroves? {
      return Crashed;
    }
    r := Quoted(q.(price := plan.price, troves := left.troves, redempted := left.count,
                   redemptionPool := plan.redeemed, redemptionFee := Fee(c.rateRedemption, plan.redeemed)));
  }

  // --- The price law ---

  // Demand of the previous period, priced at `pool`: price^20 * pool = previous^20 * market.
  predicate PriceLaw(price: real, pool: real, c: Conditions) {
    Pow(price, 20) * pool == Pow(c.previousPrice, 20) * c.market
  }

  lemma InverseQuotient(y: real, a: real, b: real)
    requires y > 0.0 && b > 0.0 && 1.0 / y == a / b
    ensures y * a == b
  {
    QuotientOrder(1.0, y, a / b);
    QuotientOrder(a, b, 1.0 / y);
    assert (a / b) * y == 1.0;
    assert (a / b) * b == a;
    calc {
      y * a;
      y * ((a / b) * b);
      ((a / b) * y) * b;
      b;
    }
  }

  lemma MarketPriceLaw(lib: Library, c: Conditions, pool: real)
    requires Faithful(lib) && c.previousPrice > 0.0 && c.market > 0.0 && pool > 0.0
    ensures MarketPrice(lib, c, pool).value > 0.0
    ensures PriceLaw(MarketPrice(lib, c, pool).value, pool, c)
  {
    QuotientOrder(pool, c.market, 0.0);
    var y := lib.root(pool / c.market);
    ProductPositive(c.previousPrice, y);
    InverseQuotient(Pow(y, 20), pool, c.market);
    ScaledLaw(MarketPrice(lib, c, pool).value, c.previousPrice, y, pool, c.market, 20);
  }

  lemma ScaledLaw(price: real, previous: real, y: real, pool: real, market: real, n: nat)
    requires price == previous * y && Pow(y, n) * pool == market
    ensures Pow(price, n) * pool == Pow(previous, n) * market
  {
    PowOfProduct(previous, y, n);
    var a, b := Pow(previous, n), Pow(y, n);
    assert (a * b) * pool == a * (b * pool);
  }

  lemma PoolAtLaw(c: Conditions, price: real)
    requires c.previousPrice > 0.0 && c.market > 0.0 && price > 0.0
    ensures PoolAt(c, price) > 0.0
    ensures PriceLaw(price, PoolAt(c, price), c)
  {
    var y := price / c.previousPrice;
    QuotientOrder(price, c.previousPrice, 0.0);
    Reciprocal(Pow(y, 20), c.market);
    ScaledLaw(price, c.previousPrice, y, PoolAt(c, price), c.market, 20);
  }

  lemma Reciprocal(power: real, market: real)
    requires power > 0.0 && market > 0.0
    ensures market * (1.0 / power) > 0.0
    ensures power * (market * (1.0 / power)) == market
  {
    QuotientOrder(1.0, power, 0.0);
    var inverse := 1.0 / power;
    ProductPositive(market, inverse);
    assert power * (market * inverse) == (inverse * power) * market;
  }

  // The law is a strictly decreasing one-to-one relation between pools and prices.
  lemma LawIsDecreasing(p: real, pool: real, p': real, pool': real, c: Conditions)
    requires p > 0.0 && p' > 0.0 && pool > 0.0 && pool' > 0.0
    requires PriceLaw(p, pool, c) && PriceLaw(p', pool', c)
    ensures p < p' <==> pool' < pool
    ensures p == p' <==> pool' == pool
  {
    PowOrder(p, p', 20);
    EqualProducts(Pow(p, 20), pool, Pow(p', 20), pool');
  }

  lemma EqualProducts(a: real, x: real, b: real, y: real)
    requires a > 0.0 && b > 0.0 && x > 0.0 && y > 0.0 && a * x == b * y
    ensures a < b <==> y < x
    ensures a == b <==> x == y
  {
    ProductOrder(a, b, x);
    ProductOrder(x, y, b);
  }

  // --- The three outcomes, for a table that covers the stability pool ---

  ghost predicate Ready(lib: Library, ts: seq<Trove>, c: Conditions) {
    Faithful(lib) && InRangeConditions(c) && AllSafe(ts, c.etherPrice)
  }

  // The price before any arbitrage.
  function RawPrice(lib: Library, ts: seq<Trove>, c: Conditions): Price
    requires InRangeConditions(c)
  {
    MarketPrice(lib, c, Total(ts) - c.stability)
  }

  function Minted(ts: seq<Trove>, c: Conditions): real
    requires InRangeConditions(c)
  {
    c.stability + PoolAt(c, CeilingPrice(c)) - Total(ts)
  }

  // The redemption is limited by the share of the pool that may be redeemed.
  predicate Capped(lib: Library, ts: seq<Trove>, c: Conditions)
    requires InRangeConditions(c)
  {
    && FloorPrice(c) > 0.0
    && RawPrice(lib, ts, c).Below(FloorPrice(c))
    && SupplyDiff(Total(ts), c) >= c.redemptionRatio * (Total(ts) - c.stability)
  }

  lemma CeilingTroveIsSafe(minted: real, etherPrice: real)
    requires minted > 0.0 && etherPrice > 0.0
    ensures Safe(CeilingTrove(minted, etherPrice), etherPrice)
    ensures etherPrice * CeilingTrove(minted, etherPrice).etherQuantity == MIN_CR * minted
  {
    QuotientOrder(minted * 1.1, etherPrice, 0.0);
  }

  // Ceiling: the arbitrageurs mint a positive amount, safely, and the price law at the new
  // supply gives exactly the ceiling.
  lemma CeilingOutcome(lib: Library, ts: seq<Trove>, c: Conditions)
    requires Ready(lib, ts, c) && Total(ts) >= c.stability
    requires RawPrice(lib, ts, c).Above(CeilingPrice(c))
    ensures Minted(ts, c) > 0.0
    ensures var q := Stabilize(lib, ts, c).quote;
            && q == AfterCeiling(lib, ts, c)
            && AllSafe(q.troves, c.etherPrice)
            && Total(q.troves) == Total(ts) + Minted(ts, c)
            && q.liquidity == Total(q.troves) - c.stability > 0.0
            && PriceLaw(CeilingPrice(c), q.liquidity, c)
  {
    var pool := Total(ts) - c.stability;
    var wanted := PoolAt(c, CeilingPrice(c));
    PoolAtLaw(c, CeilingPrice(c));
    if pool > 0.0 {
      MarketPriceLaw(lib, c, pool);
      LawIsDecreasing(CeilingPrice(c), wanted, MarketPrice(lib, c, pool).value, pool, c);
    }
    CeilingTroveIsSafe(Minted(ts, c), c.etherPrice);
    TotalSnoc(ts, CeilingTrove(Minted(ts, c), c.etherPrice));
  }

  // Floor: the supply gap is positive, and what is redeemed is a proper part of the pool.
  lemma FloorGapPositive(lib: Library, ts: seq<Trove>, c: Conditions)
    requires Faithful(lib) && InRangeConditions(c) && Total(ts) >= c.stability
    requires RawPrice(lib, ts, c).Below(FloorPrice(c))
    ensures FloorPrice(c) > 0.0 && SupplyDiff(Total(ts), c) > 0.0 && Total(ts) > c.stability
  {
    var pool := Total(ts) - c.stability;
    MarketPriceLaw(lib, c, pool);
    PoolAtLaw(c, FloorPrice(c));
    LawIsDecreasing(MarketPrice(lib, c, pool).value, pool, FloorPrice(c), PoolAt(c, FloorPrice(c)), c);
  }

  lemma PlanBounds(lib: Library, supply: real, pool: real, c: Conditions)
    requires InRangeConditions(c) && FloorPrice(c) > 0.0 && SupplyDiff(supply, c) > 0.0 && pool > 0.0
    ensures 0.0 <= FloorPlan(lib, supply, pool, c).redeemed <= c.redemptionRatio * pool < pool
  {
    RedeemablePart(c.redemptionRatio, pool);
  }

  // The redemption fits, exactly the planned amount leaves circulation, the table stays
  // safe, and the liquidity pool recorded is the one before redemption.
  ghost predicate RedeemedBy(lib: Library, ts: seq<Trove>, c: Conditions, plan: Plan, r: Result)
    requires c.etherPrice > 0.0
  {
    && 0.0 <= plan.redeemed < Total(ts) - c.stability
    && r.Quoted?
    && r.quote.price == plan.price
    && r.quote.redemptionPool == plan.redeemed
    && r.quote.liquidity == Total(ts) - c.stability
    && r.quote.issuance == 0.0
    && r.quote.redemptionFee == Fee(c.rateRedemption, plan.redeemed)
    && Redeem(lib.sort(ts), plan.redeemed, c.etherPrice) == Redeemed(r.quote.troves, r.quote.redempted)
    && AllSafe(r.quote.troves, c.etherPrice)
    && Total(r.quote.troves) == Total(ts) - plan.redeemed
  }

  lemma CarryingOutSafely(lib: Library, ts: seq<Trove>, c: Conditions, q: Quote, plan: Plan)
    requires Ready(lib, ts, c) && q == Quote(q.price, Total(ts) - c.stability, ts, 0.0, 0.0, 0, 0.0)
    requires 0.0 <= plan.redeemed < Total(ts) - c.stability
    ensures RedeemedBy(lib, ts, c, plan, CarryOut(lib, q, plan, c))
  {
    SortedTable(lib, ts, c);
    RedemptionKeepsSafe(lib.sort(ts), plan.redeemed, c.etherPrice);
    RedemptionConserves(lib.sort(ts), plan.redeemed, c.etherPrice);
  }

  lemma FloorOutcome(lib: Library, ts: seq<Trove>, c: Conditions)
    requires Ready(lib, ts, c) && Total(ts) >= c.stability
    requires RawPrice(lib, ts, c).Below(FloorPrice(c)) && FloorPrice(c) > 0.0
    ensures var plan := FloorPlan(lib, Total(ts), Total(ts) - c.stability, c);
            RedeemedBy(lib, ts, c, plan, Stabilize(lib, ts, c))
  {
    var plan := FloorPlan(lib, Total(ts), Total(ts) - c.stability, c);
    var q := FloorBranch(lib, ts, c);
    FloorGapPositive(lib, ts, c);
    PlanIsPart(lib, Total(ts), Total(ts) - c.stability, c);
    CarryingOutSafely(lib, ts, c, q, plan);
  }

  lemma FloorBranch(lib: Library, ts: seq<Trove>, c: Conditions) returns (q: Quote)
    requires Faithful(lib) && InRangeConditions(c) && FloorPrice(c) > 0.0
    requires RawPrice(lib, ts, c).Below(FloorPrice(c))
    ensures q == Quote(q.price, Total(ts) - c.stability, ts, 0.0, 0.0, 0, 0.0)
    ensures Stabilize(lib, ts, c) == CarryOut(lib, q, FloorPlan(lib, Total(ts), Total(ts) - c.stability, c), c)
  {
    q := AfterCeiling(lib, ts, c);
  }

  lemma PlanIsPart(lib: Library, supply: real, pool: real, c: Conditions)
    requires InRangeConditions(c) && FloorPrice(c) > 0.0 && SupplyDiff(supply, c) > 0.0 && pool > 0.0
    ensures 0.0 <= FloorPlan(lib, supply, pool, c).redeemed < pool
  {
    PlanBounds(lib, supply, pool, c);
  }

  lemma RedeemablePart(ratio: real, pool: real)
    requires 0.0 <= ratio < 1.0 && pool > 0.0
    ensures 0.0 <= ratio * pool < pool
  {
    ProductOrder(ratio, 1.0, pool);
    ProductOrder(0.0, ratio, pool);
  }

  lemma SortedTable(lib: Library, ts: seq<Trove>, c: Conditions)
    requires Ready(lib, ts, c)
    ensures AllSafe(lib.sort(ts), c.etherPrice)
    ensures Total(lib.sort(ts)) == Total(ts)
  {
    var sorted := lib.sort(ts);
    TotalOfPermutation(sorted, ts);
    forall i | 0 <= i < |sorted|
      ensures Safe(sorted[i], c.etherPrice)
    {
      var j := PermutationMember(sorted, ts, i);
    }
  }

  lemma BandOutcome(lib: Library, ts: seq<Trove>, c: Conditions)
    requires Ready(lib, ts, c) && Total(ts) >= c.stability
    requires !RawPrice(lib, ts, c).Above(CeilingPrice(c)) && !RawPrice(lib, ts, c).Below(FloorPrice(c))
    ensures RawPrice(lib, ts, c).Finite? && RawPrice(lib, ts, c).value > 0.0
    ensures PriceLaw(RawPrice(lib, ts, c).value, Total(ts) - c.stability, c)
    ensures Total(ts) > c.stability
    ensures Stabilize(lib, ts, c) ==
            Quoted(Quote(RawPrice(lib, ts, c), Total(ts) - c.stability, ts, 0.0, 0.0, 0, 0.0))
  {
    MarketPriceLaw(lib, c, Total(ts) - c.stability);
  }

  // With a stability pool larger than the supply there is no price, and nothing happens.
  lemma NoLiquidityOutcome(lib: Library, ts: seq<Trove>, c: Conditions)
    requires Ready(lib, ts, c) && Total(ts) < c.stability
    ensures Stabilize(lib, ts, c) ==
            Quoted(Quote(NotANumber, Total(ts) - c.stability, ts, 0.0, 0.0, 0, 0.0))
  {
  }

  // --- Main results about one call ---

  predicate WithinShare(part: real, ratio: real, whole: real) {
    0.0 <= part <= ratio * whole
  }

  // A positive finite price up to `bound`.
  predicate AtMost(price: Price, bound: real) {
    price.Finite? && 0.0 < price.value <= bound
  }

  // A positive finite price of at most the ceiling, a safe table, a positive supply and
  // liquidity pool, and a redemption within its share of the supply there was.
  ghost predicate Healthy(q: Quote, c: Conditions) {
    && AtMost(q.price, CeilingPrice(c))
    && AllSafe(q.troves, c.etherPrice)
    && Total(q.troves) > 0.0 && q.liquidity > 0.0 && q.issuance >= 0.0
    && WithinShare(q.redemptionPool, c.redemptionRatio, Total(q.troves) + q.redemptionPool)
  }

  // Whatever happens, the call completes and its quote is healthy.
  lemma StabilizerIsSafe(lib: Library, ts: seq<Trove>, c: Conditions)
    requires Ready(lib, ts, c) && Total(ts) >= c.stability
    ensures Stabilize(lib, ts, c).Quoted? && Healthy(Stabilize(lib, ts, c).quote, c)
  {
    var raw := RawPrice(lib, ts, c);
    if raw.Above(CeilingPrice(c)) {
      CeilingIsHealthy(lib, ts, c);
    } else if raw.Below(FloorPrice(c)) {
      FloorIsHealthy(lib, ts, c);
    } else {
      BandIsHealthy(lib, ts, c);
    }
  }

  lemma BandIsHealthy(lib: Library, ts: seq<Trove>, c: Conditions)
    requires Ready(lib, ts, c) && Total(ts) >= c.stability
    requires !RawPrice(lib, ts, c).Above(CeilingPrice(c)) && !RawPrice(lib, ts, c).Below(FloorPrice(c))
    ensures Stabilize(lib, ts, c).Quoted? && Healthy(Stabilize(lib, ts, c).quote, c)
  {
    BandOutcome(lib, ts, c);
    ShareOfSupply(0.0, c.redemptionRatio, 0.0, Total(ts));
  }

  lemma CeilingIsHealthy(lib: Library, ts: seq<Trove>, c: Conditions)
    requires Ready(lib, ts, c) && Total(ts) >= c.stability
    requires RawPrice(lib, ts, c).Above(CeilingPrice(c))
    ensures Stabilize(lib, ts, c).Quoted? && Healthy(Stabilize(lib, ts, c).quote, c)
  {
    CeilingOutcome(lib, ts, c);
    CeilingPays(lib, ts, c);
    ShareOfSupply(0.0, c.redemptionRatio, 0.0, Total(ts) + Minted(ts, c));
  }

  lemma FloorIsHealthy(lib: Library, ts: seq<Trove>, c: Conditions)
    requires Ready(lib, ts, c) && Total(ts) >= c.stability
    requires RawPrice(lib, ts, c).Below(FloorPrice(c))
    ensures Stabilize(lib, ts, c).Quoted? && Healthy(Stabilize(lib, ts, c).quote, c)
  {
    var plan := PlanOutcome(lib, ts, c);
    HealthyRedemption(lib, ts, c, plan, Stabilize(lib, ts, c));
  }

  lemma PlanOutcome(lib: Library, ts: seq<Trove>, c: Conditions) returns (plan: Plan)
    requires Ready(lib, ts, c) && Total(ts) >= c.stability
    requires RawPrice(lib, ts, c).Below(FloorPrice(c))
    ensures RedeemedBy(lib, ts, c, plan, Stabilize(lib, ts, c))
    ensures WithinShare(plan.redeemed, c.redemptionRatio, Total(ts))
    ensures AtMost(plan.price, FloorPrice(c))
  {
    FloorGapPositive(lib, ts, c);
    plan := FloorPlan(lib, Total(ts), Total(ts) - c.stability, c);
    assert WithinShare(plan.redeemed, c.redemptionRatio, Total(ts)) by { FloorShare(lib, Total(ts), c); }
    assert AtMost(plan.price, FloorPrice(c)) by { FloorPriceBounds(lib, ts, c); }
    assert RedeemedBy(lib, ts, c, plan, Stabilize(lib, ts, c)) by { FloorOutcome(lib, ts, c); }
  }

  lemma FloorShare(lib: Library, supply: real, c: Conditions)
    requires InRangeConditions(c) && FloorPrice(c) > 0.0 && SupplyDiff(supply, c) > 0.0 && supply > c.stability
    ensures WithinShare(FloorPlan(lib, supply, supply - c.stability, c).redeemed, c.redemptionRatio, supply)
  {
    PlanBounds(lib, supply, supply - c.stability, c);
    ShareOfSupply(FloorPlan(lib, supply, supply - c.stability, c).redeemed, c.redemptionRatio,
                  supply - c.stability, supply);
  }

  lemma HealthyRedemption(lib: Library, ts: seq<Trove>, c: Conditions, plan: Plan, r: Result)
    requires InRangeConditions(c) && RedeemedBy(lib, ts, c, plan, r)
    requires WithinShare(plan.redeemed, c.redemptionRatio, Total(ts))
    requires AtMost(plan.price, FloorPrice(c))
    ensures r.Quoted? && Healthy(r.quote, c)
  {
    assert Total(r.quote.troves) + r.quote.redemptionPool == Total(ts);
  }

  lemma CeilingPays(lib: Library, ts: seq<Trove>, c: Conditions)
    requires InRangeConditions(c) && Minted(ts, c) > 0.0
    requires RawPrice(lib, ts, c).Above(CeilingPrice(c))
    ensures AfterCeiling(lib, ts, c).issuance == Fee(c.rateIssuance, Minted(ts, c)) >= 0.0
    ensures AfterCeiling(lib, ts, c).redemptionPool == 0.0
  {
    ProductOrder(0.0, c.rateIssuance, Minted(ts, c));
  }

  lemma ShareOfSupply(redeemed: real, ratio: real, pool: real, supply: real)
    requires 0.0 <= ratio && 0.0 <= redeemed <= ratio * pool && 0.0 <= pool <= supply
    ensures WithinShare(redeemed, ratio, supply)
  {
    if ratio > 0.0 {
      ProductOrder(pool, supply, ratio);
    }
  }

  lemma FloorPriceBounds(lib: Library, ts: seq<Trove>, c: Conditions)
    requires Faithful(lib) && InRangeConditions(c) && Total(ts) > c.stability && FloorPrice(c) > 0.0
    requires RawPrice(lib, ts, c).Below(FloorPrice(c))
    ensures var price := FloorPlan(lib, Total(ts), Total(ts) - c.stability, c).price;
            && AtMost(price, FloorPrice(c))
            && (if Capped(lib, ts, c) then price == RawPrice(lib, ts, c) else price == Finite(FloorPrice(c)))
  {
    PlanPrice(lib, ts, c);
    MarketPricePositive(lib, c, Total(ts) - c.stability);
  }

  lemma PlanPrice(lib: Library, ts: seq<Trove>, c: Conditions)
    requires InRangeConditions(c) && FloorPrice(c) > 0.0 && RawPrice(lib, ts, c).Below(FloorPrice(c))
    ensures FloorPlan(lib, Total(ts), Total(ts) - c.stability, c).price ==
            if Capped(lib, ts, c) then RawPrice(lib, ts, c) else Finite(FloorPrice(c))
  {
  }

  lemma MarketPricePositive(lib: Library, c: Conditions, pool: real)
    requires Faithful(lib) && c.previousPrice > 0.0 && c.market > 0.0 && pool > 0.0
    ensures MarketPrice(lib, c, pool).Finite? && MarketPrice(lib, c, pool).value > 0.0
  {
    MarketPriceLaw(lib, c, pool);
  }

  // The price ends below the floor exactly when the redemption was capped.
  lemma BelowFloorIffCapped(lib: Library, ts: seq<Trove>, c: Conditions)
    requires Ready(lib, ts, c) && Total(ts) >= c.stability
    ensures Stabilize(lib, ts, c).Quoted?
    ensures Stabilize(lib, ts, c).quote.price.Below(FloorPrice(c)) <==> Capped(lib, ts, c)
  {
    var raw := RawPrice(lib, ts, c);
    if raw.Above(CeilingPrice(c)) {
      CeilingOutcome(lib, ts, c);
    } else if raw.Below(FloorPrice(c)) {
      FloorGapPositive(lib, ts, c);
      FloorOutcome(lib, ts, c);
      FloorPriceBounds(lib, ts, c);
    } else {
      BandOutcome(lib, ts, c);
    }
  }

  // The quoted price is the one the price law gives at the new supply, unless a capped
  // redemption took something: that one quotes the price of the old supply.
  lemma PriceLawAtNewSupply(lib: Library, ts: seq<Trove>, c: Conditions)
    requires Ready(lib, ts, c) && Total(ts) >= c.stability
    ensures Stabilize(lib, ts, c).Quoted? && Stabilize(lib, ts, c).quote.price.Finite?
    ensures var q := Stabilize(lib, ts, c).quote;
            PriceLaw(q.price.value, Total(q.troves) - c.stability, c)
            <==> !(Capped(lib, ts, c) && c.redemptionRatio > 0.0)
  {
    var raw, pool := RawPrice(lib, ts, c), Total(ts) - c.stability;
    if raw.Above(CeilingPrice(c)) {
      CeilingOutcome(lib, ts, c);
    } else if raw.Below(FloorPrice(c)) {
      FloorGapPositive(lib, ts, c);
      FloorOutcome(lib, ts, c);
      FloorLaw(lib, ts, c);
    } else {
      BandOutcome(lib, ts, c);
    }
  }

  lemma FloorLaw(lib: Library, ts: seq<Trove>, c: Conditions)
    requires Faithful(lib) && InRangeConditions(c) && Total(ts) > c.stability && FloorPrice(c) > 0.0
    requires RawPrice(lib, ts, c).Below(FloorPrice(c))
    ensures var plan := FloorPlan(lib, Total(ts), Total(ts) - c.stability, c);
            && plan.price.Finite?
            && (PriceLaw(plan.price.value, Total(ts) - c.stability - plan.redeemed, c)
                <==> !(Capped(lib, ts, c) && c.redemptionRatio > 0.0))
  {
    FloorPriceBounds(lib, ts, c);
    if Capped(lib, ts, c) {
      CappedQuotesOldSupply(lib, ts, c);
    } else {
      PoolAtLaw(c, FloorPrice(c));
    }
  }

  // Both results about a quote.
  ghost predicate QuotedByLaw(lib: Library, ts: seq<Trove>, c: Conditions, q: Quote)
    requires InRangeConditions(c)
  {
    && q.price.Finite?
    && (PriceLaw(q.price.value, Total(q.troves) - c.stability, c) <==>
        !(Capped(lib, ts, c) && c.redemptionRatio > 0.0))
    && (q.price.value < FloorPrice(c) <==> Capped(lib, ts, c))
  }

  lemma StabilizerQuotesByLaw(lib: Library, ts: seq<Trove>, c: Conditions)
    requires Ready(lib, ts, c) && Total(ts) >= c.stability
    ensures Stabilize(lib, ts, c).Quoted? && QuotedByLaw(lib, ts, c, Stabilize(lib, ts, c).quote)
  {
    PriceLawAtNewSupply(lib, ts, c);
    BelowFloorIffCapped(lib, ts, c);
  }

  lemma CappedQuotesOldSupply(lib: Library, ts: seq<Trove>, c: Conditions)
    requires Faithful(lib) && InRangeConditions(c) && Total(ts) > c.stability && Capped(lib, ts, c)
    ensures var pool := Total(ts) - c.stability;
            var redeemed := FloorPlan(lib, Total(ts), pool, c).redeemed;
            PriceLaw(RawPrice(lib, ts, c).value, pool - redeemed, c) <==> c.redemptionRatio == 0.0
  {
    var pool := Total(ts) - c.stability;
    var redeemed := FloorPlan(lib, Total(ts), pool, c).redeemed;
    MarketPriceLaw(lib, c, pool);
    LawDeterminesPool(RawPrice(lib, ts, c).value, pool, pool - redeemed, c);
    CappedTakesNothingIff(lib, ts, c);
  }

  lemma CappedTakesNothingIff(lib: Library, ts: seq<Trove>, c: Conditions)
    requires InRangeConditions(c) && Total(ts) > c.stability && Capped(lib, ts, c)
    ensures FloorPlan(lib, Total(ts), Total(ts) - c.stability, c).redeemed == 0.0 <==> c.redemptionRatio == 0.0
  {
    ProductOrder(0.0, c.redemptionRatio, Total(ts) - c.stability);
  }

  lemma LawDeterminesPool(price: real, pool: real, pool': real, c: Conditions)
    requires price > 0.0 && PriceLaw(price, pool, c)
    ensures PriceLaw(price, pool', c) <==> pool' == pool
  {
    ProductOrder(pool, pool', Pow(price, 20));
  }

  // A capped redemption does happen: supply ten times the market, and four fifths of the
  // pool to redeem.
  lemma CappedIsReached(lib: Library)
    requires Faithful(lib)
    ensures var ts := [Trove(1.0, 15.0, 1.5, 10.0, 0.1, 1.5)];
            var c := Conditions(1.0, 1.0, 0.0, 1.0, 0.01, 0.01, 0.8);
            && Ready(lib, ts, c) && Capped(lib, ts, c)
            && Stabilize(lib, ts, c).Quoted? && Stabilize(lib, ts, c).quote.price.Below(FloorPrice(c))
            && Stabilize(lib, ts, c).quote.redemptionPool == 8.0
  {
    var ts := [Trove(1.0, 15.0, 1.5, 10.0, 0.1, 1.5)];
    var c := Conditions(1.0, 1.0, 0.0, 1.0, 0.01, 0.01, 0.8);
    TenfoldSupply(lib, ts, c, FloorPrice(c));
    BelowFloorIffCapped(lib, ts, c);
    FloorOutcome(lib, ts, c);
  }

  // A supply of ten times the market quotes far below the floor.
  lemma TenfoldSupply(lib: Library, ts: seq<Trove>, c: Conditions, floor: real)
    requires Faithful(lib) && InRangeConditions(c) && c.previousPrice == 1.0 && c.stability == 0.0
    requires floor == FloorPrice(c) == 0.99 && c.redemptionRatio == 0.8 && Total(ts) >= 10.0 * c.market
    ensures Capped(lib, ts, c) && RawPrice(lib, ts, c).Below(FloorPrice(c))
  {
    FourFifths(floor, 20);
    FloorPool(c, floor, Pow(floor, 20));
    MarketPriceLaw(lib, c, Total(ts));
    PoolAtLaw(c, floor);
    LawIsDecreasing(RawPrice(lib, ts, c).value, Total(ts), floor, PoolAt(c, floor), c);
  }

  lemma FloorPool(c: Conditions, floor: real, power: real)
    requires c.previousPrice == 1.0 && c.market > 0.0 && floor > 0.0
    requires power == Pow(floor, 20) && power >= 0.8
    ensures 0.0 < PoolAt(c, floor) <= 1.25 * c.market
  {
    PoolAtLaw(c, floor);
    One(20);
    AtMostQuarterMore(power, PoolAt(c, floor), c.market);
  }

  lemma AtMostQuarterMore(power: real, pool: real, market: real)
    requires power >= 0.8 && pool > 0.0 && power * pool == market
    ensures pool <= 1.25 * market
  {
    if power > 0.8 {
      ProductOrder(0.8, power, pool);
    }
  }

  lemma FourFifths(floor: real, n: nat)
    requires floor == 0.99 && n <= 20
    ensures Pow(floor, n) >= 0.8
  {
    NearlyOne(floor, n);
  }

  lemma {:induction false} One(n: nat)
    ensures Pow(1.0, n) == 1.0
  {
    if n > 0 {
      One(n - 1);
    }
  }

  lemma {:induction false} NearlyOne(x: real, n: nat)
    requires x == 0.99
    ensures 1.0 - 0.01 * n as real <= Pow(x, n) <= 1.0
  {
    if n > 0 {
      NearlyOne(x, n - 1);
    }
  }

  // The liquidity pool that is recorded exceeds the real one by what was redeemed; it is
  // right exactly when the price did not start below the floor or nothing may be redeemed.
  lemma LiquidityIsCurrentIff(lib: Library, ts: seq<Trove>, c: Conditions)
    requires Ready(lib, ts, c)
    ensures Stabilize(lib, ts, c).Quoted?
    ensures var q := Stabilize(lib, ts, c).quote;
            && q.liquidity == Total(q.troves) - c.stability + q.redemptionPool
            && (q.liquidity == Total(q.troves) - c.stability
                <==> !(RawPrice(lib, ts, c).Below(FloorPrice(c)) && c.redemptionRatio > 0.0))
  {
    if Total(ts) < c.stability {
      NoLiquidityOutcome(lib, ts, c);
    } else if RawPrice(lib, ts, c).Above(CeilingPrice(c)) {
      CeilingOutcome(lib, ts, c);
    } else if RawPrice(lib, ts, c).Below(FloorPrice(c)) {
      FloorGapPositive(lib, ts, c);
      FloorOutcome(lib, ts, c);
      SomethingRedeemed(lib, Total(ts), Total(ts) - c.stability, c);
    } else {
      BandOutcome(lib, ts, c);
    }
  }

  lemma SomethingRedeemed(lib: Library, supply: real, pool: real, c: Conditions)
    requires InRangeConditions(c) && FloorPrice(c) > 0.0 && SupplyDiff(supply, c) > 0.0 && pool > 0.0
    ensures FloorPlan(lib, supply, pool, c).redeemed > 0.0 <==> c.redemptionRatio > 0.0
  {
    ProductOrder(0.0, c.redemptionRatio, pool);
  }

  // Supply moves only by what was minted and what was redeemed.
  function MintedBy(lib: Library, ts: seq<Trove>, c: Conditions): real
    requires InRangeConditions(c)
  {
    if RawPrice(lib, ts, c).Above(CeilingPrice(c)) then Minted(ts, c) else 0.0
  }

  lemma StabilizerConserves(lib: Library, ts: seq<Trove>, c: Conditions)
    requires Ready(lib, ts, c) && Total(ts) >= c.stability
    ensures Stabilize(lib, ts, c).Quoted?
    ensures var q := Stabilize(lib, ts, c).quote;
            Total(q.troves) == Total(ts) + MintedBy(lib, ts, c) - q.redemptionPool
    ensures MintedBy(lib, ts, c) >= 0.0
  {
    if RawPrice(lib, ts, c).Above(CeilingPrice(c)) {
      CeilingOutcome(lib, ts, c);
    } else if RawPrice(lib, ts, c).Below(FloorPrice(c)) {
      var plan := PlanOutcome(lib, ts, c);
    } else {
      BandOutcome(lib, ts, c);
    }
  }

  // --- What a call does to the table and to the accounts ---

  // A trove opened at 110% by the ceiling arbitrageurs.
  predicate OpenedAtCeiling(t: Trove, etherPrice: real) {
    && t.supply > 0.0 && t.etherPrice == etherPrice
    && Worth(etherPrice, t.etherQuantity) == 1.1 * t.supply
    && t.crInitial == 1.1 && t.crCurrent == 1.1 && t.inattention == 0.1
  }

  // Above 1.1 plus the issuance rate one trove is opened, below 1 minus the redemption rate
  // the cheapest ones pay out, and in between the table stays as it is.
  ghost predicate TableAfter(lib: Library, ts: seq<Trove>, c: Conditions, q: Quote)
    requires InRangeConditions(c)
  {
    if RawPrice(lib, ts, c).Above(1.1 + c.rateIssuance) then
      |q.troves| == |ts| + 1 && q.troves[..|ts|] == ts && OpenedAtCeiling(q.troves[|ts|], c.etherPrice)
    else if RawPrice(lib, ts, c).Below(1.0 - c.rateRedemption) then
      var sorted := lib.sort(ts);
      FirstPaysOut(sorted, q.troves, q.redempted, q.redemptionPool, c.etherPrice)
    else
      q.troves == ts
  }

  lemma StabilizerReshapes(lib: Library, ts: seq<Trove>, c: Conditions)
    requires Ready(lib, ts, c) && Total(ts) >= c.stability
    ensures Stabilize(lib, ts, c).Quoted? && TableAfter(lib, ts, c, Stabilize(lib, ts, c).quote)
  {
    if RawPrice(lib, ts, c).Above(CeilingPrice(c)) {
      CeilingOutcome(lib, ts, c);
      CeilingTroveIs(Minted(ts, c), c.etherPrice);
    } else if RawPrice(lib, ts, c).Below(FloorPrice(c)) {
      FloorGapPositive(lib, ts, c);
      FloorOutcome(lib, ts, c);
      SortedIsSound(lib, ts, c);
      RedeemPaysOut(lib.sort(ts), Stabilize(lib, ts, c).quote.redemptionPool, c.etherPrice);
    } else {
      BandOutcome(lib, ts, c);
    }
  }

  lemma CeilingTroveIs(minted: real, etherPrice: real)
    requires minted > 0.0 && etherPrice > 0.0
    ensures OpenedAtCeiling(CeilingTrove(minted, etherPrice), etherPrice)
  {
    CeilingTroveIsSafe(minted, etherPrice);
  }

  lemma SortedIsSound(lib: Library, ts: seq<Trove>, c: Conditions)
    requires Ready(lib, ts, c)
    ensures AllSound(lib.sort(ts))
  {
    SortedTable(lib, ts, c);
    forall i | 0 <= i < |lib.sort(ts)|
      ensures Sound(lib.sort(ts)[i])
    {
      assert Safe(lib.sort(ts)[i], c.etherPrice);
    }
  }

  // The ether that a redemption pays out: all that the closed troves hold, and as much as
  // is worth the debt taken from the next one.
  lemma RedemptionPaysOut(lib: Library, ts: seq<Trove>, c: Conditions)
    requires Ready(lib, ts, c) && Total(ts) >= c.stability
    requires RawPrice(lib, ts, c).Below(1.0 - c.rateRedemption)
    ensures Stabilize(lib, ts, c).Quoted? && Stabilize(lib, ts, c).quote.redempted < |lib.sort(ts)|
    ensures var q := Stabilize(lib, ts, c).quote;
            var closed := lib.sort(ts)[..q.redempted];
            Worth(c.etherPrice, Ether(ts) - Ether(q.troves)) ==
            Worth(c.etherPrice, Ether(closed)) + (q.redemptionPool - Total(closed))
  {
    StabilizerReshapes(lib, ts, c);
    var q := Stabilize(lib, ts, c).quote;
    EtherOfPermutation(lib.sort(ts), ts);
    TablePaysOut(lib.sort(ts), q.troves, q.redempted, q.redemptionPool, c.etherPrice);
  }

  // The price ends positive and at most at a ceiling, and there exactly when it starts there
  // or above.
  predicate EndsUnder(raw: Price, price: Price, ceiling: real) {
    && price.Finite? && 0.0 < price.value <= ceiling
    && (price.value == ceiling <==> raw.Above(ceiling) || raw == Finite(ceiling))
  }

  predicate IsShare(part: real, rate: real, whole: real) {
    part == rate * whole
  }

  lemma FeeIsShare(rate: real, amount: real)
    ensures IsShare(Fee(rate, amount), rate, amount)
  {
  }

  // The ceiling is 1.1 plus the issuance rate; something is minted exactly above it; and
  // both fees are the rates of what is minted and of what is redeemed.
  ghost predicate Charges(lib: Library, ts: seq<Trove>, c: Conditions, q: Quote)
    requires InRangeConditions(c)
  {
    && EndsUnder(RawPrice(lib, ts, c), q.price, 1.1 + c.rateIssuance)
    && (MintedBy(lib, ts, c) > 0.0 <==> RawPrice(lib, ts, c).Above(1.1 + c.rateIssuance))
    && IsShare(q.issuance, c.rateIssuance, MintedBy(lib, ts, c))
    && IsShare(q.redemptionFee, c.rateRedemption, q.redemptionPool)
  }

  lemma StabilizerCharges(lib: Library, ts: seq<Trove>, c: Conditions)
    requires Ready(lib, ts, c) && Total(ts) >= c.stability
    ensures Stabilize(lib, ts, c).Quoted? && Charges(lib, ts, c, Stabilize(lib, ts, c).quote)
  {
    if RawPrice(lib, ts, c).Above(CeilingPrice(c)) {
      CeilingCharges(lib, ts, c);
    } else if RawPrice(lib, ts, c).Below(FloorPrice(c)) {
      FloorCharges(lib, ts, c);
    } else {
      BandCharges(lib, ts, c);
    }
  }

  lemma CeilingCharges(lib: Library, ts: seq<Trove>, c: Conditions)
    requires Ready(lib, ts, c) && Total(ts) >= c.stability
    requires RawPrice(lib, ts, c).Above(CeilingPrice(c))
    ensures Stabilize(lib, ts, c).Quoted? && Charges(lib, ts, c, Stabilize(lib, ts, c).quote)
  {
    CeilingOutcome(lib, ts, c);
    FeeIsShare(c.rateIssuance, Minted(ts, c));
  }

  lemma FloorCharges(lib: Library, ts: seq<Trove>, c: Conditions)
    requires Ready(lib, ts, c) && Total(ts) >= c.stability
    requires RawPrice(lib, ts, c).Below(FloorPrice(c))
    ensures Stabilize(lib, ts, c).Quoted? && Charges(lib, ts, c, Stabilize(lib, ts, c).quote)
  {
    var plan := PlanOutcome(lib, ts, c);
    FeeIsShare(c.rateRedemption, plan.redeemed);
  }

  lemma BandCharges(lib: Library, ts: seq<Trove>, c: Conditions)
    requires Ready(lib, ts, c) && Total(ts) >= c.stability
    requires !RawPrice(lib, ts, c).Above(CeilingPrice(c)) && !RawPrice(lib, ts, c).Below(FloorPrice(c))
    ensures Stabilize(lib, ts, c).Quoted? && Charges(lib, ts, c, Stabilize(lib, ts, c).quote)
  {
    BandOutcome(lib, ts, c);
  }

  lemma SortedSplit(lib: Library, ts: seq<Trove>, k: nat)
    requires Faithful(lib) && k <= |lib.sort(ts)|
    ensures multiset(lib.sort(ts)[..k]) + multiset(lib.sort(ts)[k..]) == multiset(ts)
    ensures forall x <- lib.sort(ts)[..k], y <- lib.sort(ts)[k..] :: x.crCurrent <= y.crCurrent
  {
    var sorted := lib.sort(ts);
    assert sorted == sorted[..k] + sorted[k..];
    forall x, y | x in sorted[..k] && y in sorted[k..]
      ensures x.crCurrent <= y.crCurrent
    {
      var i :| 0 <= i < k && sorted[i] == x;
      var j :| k <= j < |sorted| && sorted[j] == y;
    }
  }

  // Redemption closes the troves of the lowest recorded ratios, takes from the next and
  // leaves the others alone, however the sort orders troves of equal ratio.
  lemma RedemptionFollowsRecord(lib: Library, ts: seq<Trove>, amount: real, etherPrice: real)
    requires Faithful(lib) && etherPrice > 0.0 && Redeem(lib.sort(ts), amount, etherPrice).Redeemed?
    ensures var sorted, r := lib.sort(ts), Redeem(lib.sort(ts), amount, etherPrice);
            && r.count < |sorted| && r.troves != [] && r.troves[1..] == sorted[r.count + 1..]
            && multiset(sorted[..r.count]) + multiset(sorted[r.count..]) == multiset(ts)
            && (forall x <- sorted[..r.count], y <- sorted[r.count..] :: x.crCurrent <= y.crCurrent)
  {
    SortedSplit(lib, ts, FitCount(lib.sort(ts), amount));
  }

  // --- Are the closed troves the riskiest? ---

  function ActualRatio(t: Trove): real
    requires t.supply != 0.0
  {
    t.etherPrice * t.etherQuantity / t.supply
  }

  // No closed trove has a higher actual ratio than one that is kept.
  predicate ClosesRiskiest(sorted: seq<Trove>, amount: real)
    requires AllSound(sorted)
  {
    forall i, j :: 0 <= i < FitCount(sorted, amount) <= j < |sorted| ==>
      ActualRatio(sorted[i]) <= ActualRatio(sorted[j])
  }

  // The ratio a row of the adjusted table really has: its owner's, where it was overdue,
  // because adjusting leaves the recorded one as it was.
  function RatioLeft(t: Trove): real
    requires Sound(t)
  {
    if Overdue(t) then t.crInitial else t.crCurrent
  }

  predicate StaleWhereOverdue(ts: seq<Trove>) {
    forall i :: 0 <= i < |ts| ==> Sound(ts[i]) && ActualRatio(ts[i]) == RatioLeft(ts[i])
  }

  // Wherever an overdue row is involved, the ratios really left follow the recorded order.
  predicate NoneOvertakes(sorted: seq<Trove>)
    requires AllSound(sorted)
  {
    forall i, j :: 0 <= i < j < |sorted| && (Overdue(sorted[i]) || Overdue(sorted[j])) ==>
      RatioLeft(sorted[i]) <= RatioLeft(sorted[j])
  }

  // The amount covers all rows up to this one.
  predicate PaidFor(sorted: seq<Trove>, amount: real, i: nat)
    requires i < |sorted|
  {
    Total(sorted[..i + 1]) <= amount
  }

  // The same, of the rows that an amount pays for against those that it does not.
  predicate NoneOvertakesAt(sorted: seq<Trove>, amount: real)
    requires AllSound(sorted)
  {
    forall i, j :: 0 <= i < j < |sorted| && PaidFor(sorted, amount, i) && !PaidFor(sorted, amount, j)
                   && (Overdue(sorted[i]) || Overdue(sorted[j])) ==>
      RatioLeft(sorted[i]) <= RatioLeft(sorted[j])
  }

  lemma SortedKeepsStale(lib: Library, ts: seq<Trove>)
    requires Faithful(lib) && StaleWhereOverdue(ts)
    ensures StaleWhereOverdue(lib.sort(ts)) && AllSound(lib.sort(ts)) && SortedByCR(lib.sort(ts))
    ensures Total(lib.sort(ts)) == Total(ts)
  {
    var sorted := lib.sort(ts);
    TotalOfPermutation(sorted, ts);
    forall i | 0 <= i < |sorted|
      ensures Sound(sorted[i]) && ActualRatio(sorted[i]) == RatioLeft(sorted[i])
    {
      var j := PermutationMember(sorted, ts, i);
    }
  }

  // An amount closes the riskiest troves exactly when none of the rows it pays for was
  // adjusted past one that it does not: the sort goes by the ratio before adjusting.
  lemma ClosesRiskiestIff(sorted: seq<Trove>, amount: real)
    requires AllSound(sorted) && SortedByCR(sorted) && StaleWhereOverdue(sorted) && amount >= 0.0
    ensures ClosesRiskiest(sorted, amount) <==> NoneOvertakesAt(sorted, amount)
  {
    forall i | 0 <= i < |sorted|
      ensures PaidFor(sorted, amount, i) <==> i < FitCount(sorted, amount)
    {
      FitCountIsLargest(sorted, amount, i + 1);
    }
    if NoneOvertakesAt(sorted, amount) {
      forall i, j | 0 <= i < FitCount(sorted, amount) <= j < |sorted|
        ensures ActualRatio(sorted[i]) <= ActualRatio(sorted[j])
      {
        assert RatioLeft(sorted[i]) <= RatioLeft(sorted[j]);
      }
    } else {
      var i, j :| 0 <= i < j < |sorted| && PaidFor(sorted, amount, i) && !PaidFor(sorted, amount, j)
                  && RatioLeft(sorted[i]) > RatioLeft(sorted[j]);
      assert ActualRatio(sorted[i]) > ActualRatio(sorted[j]);
    }
  }

  // Every amount closes the riskiest troves exactly when no overdue trove was adjusted past
  // any other one.
  lemma AlwaysClosesRiskiestIff(lib: Library, ts: seq<Trove>)
    requires Faithful(lib) && StaleWhereOverdue(ts)
    ensures AllSound(lib.sort(ts))
    ensures (forall amount: real :: 0.0 <= amount < Total(ts) ==> ClosesRiskiest(lib.sort(ts), amount))
            <==> NoneOvertakes(lib.sort(ts))
  {
    SortedKeepsStale(lib, ts);
    var sorted := lib.sort(ts);
    if NoneOvertakes(sorted) {
      forall amount: real | 0.0 <= amount < Total(ts)
        ensures ClosesRiskiest(sorted, amount)
      {
        RiskiestWhenNoneOvertakes(sorted, amount);
      }
    } else {
      var i, j :| 0 <= i < j < |sorted| && RatioLeft(sorted[i]) > RatioLeft(sorted[j]);
      var amount := AmountClosing(sorted, i, j);
      assert !ClosesRiskiest(sorted, amount);
    }
  }

  // What a call is going to redeem.
  function PlannedRedemption(lib: Library, ts: seq<Trove>, c: Conditions): real
    requires InRangeConditions(c)
  {
    if FloorPrice(c) > 0.0 && RawPrice(lib, ts, c).Below(FloorPrice(c))
    then FloorPlan(lib, Total(ts), Total(ts) - c.stability, c).redeemed
    else 0.0
  }

  // So much is known before the call, and so is whether it closes the riskiest troves.
  lemma StabilizerClosesRiskiestIff(lib: Library, ts: seq<Trove>, c: Conditions)
    requires Ready(lib, ts, c) && StaleWhereOverdue(ts) && Total(ts) >= c.stability
    ensures Stabilize(lib, ts, c).Quoted? && AllSound(lib.sort(ts))
    ensures var sorted, q, planned := lib.sort(ts), Stabilize(lib, ts, c).quote, PlannedRedemption(lib, ts, c);
            && q.redemptionPool == planned && q.redempted == FitCount(sorted, planned)
            && (ClosesRiskiest(sorted, planned) <==> NoneOvertakesAt(sorted, planned))
  {
    SortedKeepsStale(lib, ts);
    RedeemsAsPlanned(lib, ts, c);
    ClosesRiskiestIff(lib.sort(ts), PlannedRedemption(lib, ts, c));
  }

  ghost predicate AsPlanned(lib: Library, ts: seq<Trove>, planned: real, q: Quote) {
    planned >= 0.0 && q.redemptionPool == planned && q.redempted == FitCount(lib.sort(ts), planned)
  }

  lemma RedeemsAsPlanned(lib: Library, ts: seq<Trove>, c: Conditions)
    requires Ready(lib, ts, c) && Total(ts) >= c.stability && AllSound(lib.sort(ts))
    ensures Stabilize(lib, ts, c).Quoted?
    ensures AsPlanned(lib, ts, PlannedRedemption(lib, ts, c), Stabilize(lib, ts, c).quote)
  {
    NothingFits(lib.sort(ts));
    if RawPrice(lib, ts, c).Above(CeilingPrice(c)) {
      CeilingOutcome(lib, ts, c);
    } else if RawPrice(lib, ts, c).Below(FloorPrice(c)) {
      FloorAsPlanned(lib, ts, c);
    } else {
      BandOutcome(lib, ts, c);
    }
  }

  lemma FloorAsPlanned(lib: Library, ts: seq<Trove>, c: Conditions)
    requires Ready(lib, ts, c) && Total(ts) >= c.stability
    requires RawPrice(lib, ts, c).Below(FloorPrice(c))
    ensures Stabilize(lib, ts, c).Quoted?
    ensures AsPlanned(lib, ts, PlannedRedemption(lib, ts, c), Stabilize(lib, ts, c).quote)
  {
    FloorIsPositive(lib, ts, c);
    FloorOutcome(lib, ts, c);
    var plan := PlannedOf(lib, ts, c);
    PlanCounts(lib, ts, c, plan, Stabilize(lib, ts, c));
  }

  lemma FloorIsPositive(lib: Library, ts: seq<Trove>, c: Conditions)
    requires Faithful(lib) && InRangeConditions(c) && Total(ts) >= c.stability
    requires RawPrice(lib, ts, c).Below(FloorPrice(c))
    ensures FloorPrice(c) > 0.0
  {
    FloorGapPositive(lib, ts, c);
  }

  lemma PlannedOf(lib: Library, ts: seq<Trove>, c: Conditions) returns (plan: Plan)
    requires InRangeConditions(c) && FloorPrice(c) > 0.0 && RawPrice(lib, ts, c).Below(FloorPrice(c))
    ensures plan == FloorPlan(lib, Total(ts), Total(ts) - c.stability, c)
    ensures plan.redeemed == PlannedRedemption(lib, ts, c)
  {
    plan := FloorPlan(lib, Total(ts), Total(ts) - c.stability, c);
  }

  lemma PlanCounts(lib: Library, ts: seq<Trove>, c: Conditions, plan: Plan, r: Result)
    requires c.etherPrice > 0.0 && RedeemedBy(lib, ts, c, plan, r)
    ensures AsPlanned(lib, ts, plan.redeemed, r.quote)
  {
    CountIsFit(lib.sort(ts), plan.redeemed, c.etherPrice);
  }

  lemma NothingFits(ts: seq<Trove>)
    requires AllSound(ts)
    ensures FitCount(ts, 0.0) == 0
  {
  }

  lemma CountIsFit(ts: seq<Trove>, pool: real, etherPrice: real)
    requires etherPrice != 0.0 && Redeem(ts, pool, etherPrice).Redeemed?
    ensures Redeem(ts, pool, etherPrice).count == FitCount(ts, pool)
  {
  }

  lemma RiskiestWhenNoneOvertakes(sorted: seq<Trove>, amount: real)
    requires AllSound(sorted) && SortedByCR(sorted) && StaleWhereOverdue(sorted) && NoneOvertakes(sorted)
    ensures ClosesRiskiest(sorted, amount)
  {
    forall i, j | 0 <= i < FitCount(sorted, amount) <= j < |sorted|
      ensures ActualRatio(sorted[i]) <= ActualRatio(sorted[j])
    {
      assert RatioLeft(sorted[i]) <= RatioLeft(sorted[j]);
    }
  }

  // An amount that closes row `i` and keeps row `j`.
  lemma AmountClosing(sorted: seq<Trove>, i: nat, j: nat) returns (amount: real)
    requires AllSound(sorted) && i < j < |sorted|
    ensures 0.0 <= amount < Total(sorted)
    ensures i < FitCount(sorted, amount) <= j
  {
    amount := Total(sorted[..j]);
    TotalNonNegative(sorted[..j]);
    FitCountIsLargest(sorted, amount, j);
    FitCountIsLargest(sorted, amount, j + 1);
    assert sorted[..j + 1] == sorted[..j] + [sorted[j]];
    TotalSnoc(sorted[..j], sorted[j]);
    PrefixOrder(sorted, j + 1, |sorted|);
    assert sorted[..|sorted|] == sorted;
  }

  // With every recorded ratio fresh there is nothing to overtake.
  lemma FreshTableClosesRiskiest(lib: Library, ts: seq<Trove>, amount: real)
    requires Faithful(lib) && AllSound(ts) && forall i :: 0 <= i < |ts| ==> Fresh(ts[i])
    ensures AllSound(lib.sort(ts)) && ClosesRiskiest(lib.sort(ts), amount)
  {
    var sorted := lib.sort(ts);
    forall i | 0 <= i < |sorted|
      ensures Sound(sorted[i]) && Fresh(sorted[i])
    {
      var j := PermutationMember(sorted, ts, i);
    }
  }

  lemma SortOfPair(lib: Library, x: Trove, y: Trove)
    requires Faithful(lib) && y.crCurrent < x.crCurrent
    ensures lib.sort([x, y]) == [y, x]
  {
    var sorted := lib.sort([x, y]);
    TotalOfPermutation(sorted, [x, y]);
    assert x in multiset(sorted) && y in multiset(sorted);
    var i :| 0 <= i < |sorted| && sorted[i] == x;
    var j :| 0 <= j < |sorted| && sorted[j] == y;
  }

  const DEBTOR: Trove := Trove(1.0, 2.0, 2.0, 1.6, 0.1, 1.25)
  const REPAID: Trove := Trove(1.0, 2.0, 2.0, 1.0, 0.1, 1.25)
  const IDLER: Trove := Trove(1.0, 1.5, 1.5, 1.0, 0.1, 1.5)

  // Its owner pays the first trove back from 125% to 200%; the other, at 150%, is left alone.
  lemma DebtorRepays()
    ensures Safe(DEBTOR, 1.0) && Fresh(DEBTOR) && Safe(IDLER, 1.0) && Fresh(IDLER)
    ensures Adjust(DEBTOR, 1.0, 0.5) == REPAID && Adjust(IDLER, 1.0, 0.5) == IDLER
  {
    DeviationIs(DEBTOR, 0.2, -3.75);
    DeviationIs(IDLER, 0.15, 0.0);
  }

  lemma DeviationIs(t: Trove, unit: real, deviation: real)
    requires Sound(t) && unit > 0.0 && t.crInitial * t.inattention == unit
    requires t.crCurrent - t.crInitial == deviation * unit
    ensures Deviation(t) == deviation
  {
    QuotientOrder(t.crCurrent - t.crInitial, unit, deviation);
  }

  // `x` is closed and `y` is kept, although `x` has the higher ratio.
  ghost predicate WronglyFirst(lib: Library, x: Trove, y: Trove, amount: real) {
    && lib.sort([y, x]) == [x, y] && FitCount([x, y], amount) == 1
    && AllSound([x, y]) && !ClosesRiskiest([x, y], amount)
  }

  // The stabiliser itself does so: a supply of 2 against a market of 0.1, and four fifths of
  // the pool to redeem, closes the trove at 200% and takes the rest from the one at 150%.
  lemma StabilizerClosesRepaid(lib: Library)
    requires Faithful(lib)
    ensures var ts, c := [IDLER, REPAID], Conditions(1.0, 0.1, 0.0, 1.0, 0.01, 0.01, 0.8);
            && Ready(lib, ts, c) && Stabilize(lib, ts, c).Quoted?
            && Stabilize(lib, ts, c).quote.redempted == 1 && Stabilize(lib, ts, c).quote.redemptionPool == 1.6
    ensures HasRatio(REPAID, 2.0) && HasRatio(IDLER, 1.5) && WronglyFirst(lib, REPAID, IDLER, 1.6)
  {
    RepaidGoesFirst(lib, 1.6);
    var c := Conditions(1.0, 0.1, 0.0, 1.0, 0.01, 0.01, 0.8);
    RepaidCall(lib, [IDLER, REPAID], c);
  }

  lemma RepaidCall(lib: Library, ts: seq<Trove>, c: Conditions)
    requires Faithful(lib) && ts == [IDLER, REPAID] && c == Conditions(1.0, 0.1, 0.0, 1.0, 0.01, 0.01, 0.8)
    requires WronglyFirst(lib, REPAID, IDLER, 1.6)
    ensures Ready(lib, ts, c) && Stabilize(lib, ts, c).Quoted?
    ensures Stabilize(lib, ts, c).quote.redempted == 1 && Stabilize(lib, ts, c).quote.redemptionPool == 1.6
  {
    TotalSnoc([], IDLER);
    TotalSnoc([IDLER], REPAID);
    assert [] + [IDLER] == [IDLER] && [IDLER] + [REPAID] == ts;
    TenfoldSupply(lib, ts, c, FloorPrice(c));
    RedeemsAsPlanned(lib, ts, c);
  }

  // The trove at 200% is closed before the one at 150%, by any amount that pays for it.
  lemma RepaidGoesFirst(lib: Library, amount: real)
    requires Faithful(lib) && 1.0 <= amount < 2.0
    ensures HasRatio(REPAID, 2.0) && HasRatio(IDLER, 1.5)
    ensures WronglyFirst(lib, REPAID, IDLER, amount)
  {
    OutOfOrder(lib, REPAID, 2.0, IDLER, 1.5, amount);
  }

  predicate HasRatio(t: Trove, ratio: real) {
    t.supply != 0.0 && ActualRatio(t) == ratio
  }

  lemma OutOfOrder(lib: Library, x: Trove, ratioX: real, y: Trove, ratioY: real, amount: real)
    requires Faithful(lib) && Sound(x) && Sound(y) && x.supply <= amount < x.supply + y.supply
    requires x.etherPrice * x.etherQuantity == ratioX * x.supply
    requires y.etherPrice * y.etherQuantity == ratioY * y.supply
    requires x.crCurrent < y.crCurrent && ratioX > ratioY
    ensures HasRatio(x, ratioX) && HasRatio(y, ratioY)
    ensures WronglyFirst(lib, x, y, amount)
  {
    QuotientOrder(x.etherPrice * x.etherQuantity, x.supply, ratioX);
    QuotientOrder(y.etherPrice * y.etherQuantity, y.supply, ratioY);
    SortOfPair(lib, y, x);
    var pair := [x, y];
    assert pair[1..] == [y];
    assert pair[0] == x && pair[1] == y;
  }
}
