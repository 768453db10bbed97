/**
 The token-market recurrence: redemption, decaying base fee, market clearing with a price
 clamped at zero, and a price ceiling held by extra issuance.
 */
module TokenMarket {
  import opened Powers

  datatype Params = Params(D: real, T: real, F: real, maxRedemptionFraction: real)

  const DEFAULTS: Params := Params(0.5, 1.0, 0.3, 1.0)

  const PRICE_CEILING: real := 1.1

  // The last entries of the series that the next step reads.
  datatype State = State(baseFee: real, redeemed: real, price: real, issuance: real, supply: real)

  const INITIAL: State := State(0.0, 0.0, 1.0, 100.0, 100.0)

  const TOKEN_DEMAND: real := 100.0

  function ClampAtZero(x: real): (r: real)
    ensures r >= 0.0
  {
    if x < 0.0 then 0.0 else x
  }

  // The amount at which redeeming is worth its fee.
  function WorthRedeeming(s: State): real {
    (1.0 - s.price - s.baseFee) * s.supply
  }

  function Capped(wanted: real, limit: real): real {
    if limit == 0.0 || wanted < 0.0 then 0.0
    else if wanted <= limit then wanted else limit
  }

  function MaxRedeemable(s: State, p: Params): real {
    s.supply * p.maxRedemptionFraction
  }

  function NewRedeemed(s: State, p: Params): real {
    Capped(WorthRedeeming(s), MaxRedeemable(s, p))
  }

  function NewBaseFee(s: State, p: Params, redeemed: real): real {
    if s.supply == 0.0 then 0.0 else (s.baseFee + redeemed / (2.0 * s.supply)) * p.D
  }

  function ClearingPrice(s: State, p: Params, redeemed: real, momentum: real): real
    requires p.T != 0.0 && s.issuance != 0.0
  {
    ((TOKEN_DEMAND - redeemed) / s.issuance - p.F * momentum) * (1.0 / p.T)
  }

  function NewPrice(s: State, p: Params, redeemed: real, momentum: real): real
    requires p.T != 0.0 && s.issuance != 0.0
  {
    ClampAtZero(ClearingPrice(s, p, redeemed, momentum))
  }

  function NewIssuance(s: State, p: Params, price: real, momentum: real): real {
    ClampAtZero(s.issuance * (p.T * price + p.F * momentum))
  }

  function NewSupply(issuance: real, redeemed: real): real {
    ClampAtZero(issuance - redeemed)
  }

  function ExcessIssuance(price: real, supply: real): real {
    if price > PRICE_CEILING then supply * (price - PRICE_CEILING) / PRICE_CEILING else 0.0
  }

  // `None` is the ZeroDivisionError of the clearing price.
  datatype Option<T> = None | Some(value: T)

  function Step(s: State, p: Params, momentum: real): Option<State> {
    if p.T == 0.0 || s.issuance == 0.0 then None
    else
      var redeemed := NewRedeemed(s, p);
      var baseFee := NewBaseFee(s, p, redeemed);
      var price := NewPrice(s, p, redeemed, momentum);
      var cleared := NewIssuance(s, p, price, momentum);
      var issuance := cleared + ExcessIssuance(price, NewSupply(cleared, redeemed));
      Some(State(baseFee, redeemed, if price > PRICE_CEILING then PRICE_CEILING else price,
                 issuance, NewSupply(issuance, 0.0)))
  }

  function Run(s: State, p: Params, momenta: seq<real>): Option<State>
    decreases |momenta|
  {
    if momenta == [] then Some(s)
    else
      match Step(s, p, momenta[0])
      case None => None
      case Some(next) => Run(next, p, momenta[1..])
  }

  // --- The base fee ---

  predicate InRange(p: Params) {
    0.0 < p.D <= 1.0 && p.T > 0.0 && 0.0 <= p.maxRedemptionFraction <= 1.0
  }

  // The fixed point of fee = D * (1 + fee) / 2; one third for D = 1/2.
  function FeeLimit(p: Params): real
    requires p.D < 2.0
  {
    p.D / (2.0 - p.D)
  }

  predicate Inv(s: State, p: Params)
    requires p.D < 2.0
  {
    && 0.0 <= s.baseFee < FeeLimit(p)
    && 0.0 <= s.price <= PRICE_CEILING
    && s.supply == s.issuance >= 0.0
    && s.redeemed >= 0.0
  }

  lemma RedeemedBounds(s: State, p: Params)
    requires InRange(p) && Inv(s, p)
    ensures 0.0 <= NewRedeemed(s, p) <= s.supply
    ensures NewRedeemed(s, p) <= ClampAtZero(WorthRedeeming(s))
  {
    MaxRedeemableBounds(s, p);
    CappedBounds(WorthRedeeming(s), MaxRedeemable(s, p));
  }

  lemma MaxRedeemableBounds(s: State, p: Params)
    requires InRange(p) && Inv(s, p)
    ensures 0.0 <= MaxRedeemable(s, p) <= s.supply
  {
    ShareBounds(p.maxRedemptionFraction, s.supply, MaxRedeemable(s, p));
  }

  lemma CappedBounds(wanted: real, limit: real)
    requires limit >= 0.0
    ensures 0.0 <= Capped(wanted, limit) <= limit && Capped(wanted, limit) <= ClampAtZero(wanted)
  {
  }

  lemma ShareBounds(share: real, whole: real, part: real)
    requires 0.0 <= share <= 1.0 && whole >= 0.0 && part == whole * share
    ensures 0.0 <= part <= whole
  {
    if whole > 0.0 {
      ProductOrder(0.0, share, whole);
      ProductOrder(share, 1.0, whole);
    }
  }

  lemma FeeLimitFixed(p: Params)
    requires InRange(p)
    ensures FeeLimit(p) > 0.0 && (1.0 + FeeLimit(p)) / 2.0 * p.D == FeeLimit(p)
  {
    var limit := FeeLimit(p);
    QuotientOrder(p.D, 2.0 - p.D, 0.0);
    QuotientOrder(p.D, 2.0 - p.D, limit);
    assert limit * (2.0 - p.D) == p.D;
    assert (1.0 + limit) * p.D == 2.0 * limit;
  }

  lemma FeeStaysBelowLimit(s: State, p: Params)
    requires InRange(p) && Inv(s, p)
    ensures 0.0 <= NewBaseFee(s, p, NewRedeemed(s, p)) < FeeLimit(p)
  {
    FeeLimitFixed(p);
    if s.supply != 0.0 {
      RedeemedBounds(s, p);
      WorthBound(s, p);
      FeeAfterDecay(NewRedeemed(s, p), s.supply, s.baseFee, p);
    }
  }

  lemma FeeLimitAtMostOne(p: Params)
    requires InRange(p)
    ensures FeeLimit(p) <= 1.0
  {
    QuotientOrder(p.D, 2.0 - p.D, 1.0);
  }

  // With a non-negative price, what is worth redeeming is within what the fee leaves.
  lemma WorthBound(s: State, p: Params)
    requires InRange(p) && Inv(s, p) && s.supply > 0.0
    ensures ClampAtZero(WorthRedeeming(s)) <= (1.0 - s.baseFee) * s.supply
  {
    FeeLimitAtMostOne(p);
    ProductPositive(s.supply, 1.0 - s.baseFee);
    if s.price > 0.0 {
      ProductOrder(1.0 - s.price - s.baseFee, 1.0 - s.baseFee, s.supply);
    }
  }

  lemma FeeAfterDecay(redeemed: real, supply: real, fee: real, p: Params)
    requires InRange(p) && supply > 0.0 && 0.0 <= fee < FeeLimit(p)
    requires 0.0 <= redeemed <= (1.0 - fee) * supply
    ensures 0.0 <= (fee + redeemed / (2.0 * supply)) * p.D < FeeLimit(p)
  {
    var inner, limit := fee + redeemed / (2.0 * supply), (1.0 + FeeLimit(p)) / 2.0;
    FeeLimitFixed(p);
    QuotientOrder(redeemed, 2.0 * supply, 0.0);
    QuotientOrder(redeemed, 2.0 * supply, (1.0 - fee) / 2.0);
    assert 0.0 <= inner < limit;
    ProductOrder(inner, limit, p.D);
    ProductOrder(0.0, inner, p.D);
  }

  // --- Market clearing ---

  // What the momentum term alone would have issued.
  function MomentumIssuance(s: State, p: Params, momentum: real): real {
    s.issuance * (p.F * momentum)
  }

  function Max(x: real, y: real): real {
    if x >= y then x else y
  }

  lemma ClearingPriceSign(s: State, p: Params, redeemed: real, momentum: real)
    requires p.T > 0.0 && s.issuance > 0.0
    ensures var price := ClearingPrice(s, p, redeemed, momentum);
            && s.issuance * (p.T * price + p.F * momentum) == TOKEN_DEMAND - redeemed
            && (price < 0.0 <==> TOKEN_DEMAND - redeemed < MomentumIssuance(s, p, momentum))
  {
    ClearingArithmetic(TOKEN_DEMAND - redeemed, s.issuance, p.T, p.F * momentum);
  }

  lemma ClearingArithmetic(wanted: real, issuance: real, T: real, push: real)
    requires T > 0.0 && issuance > 0.0
    ensures var price := (wanted / issuance - push) * (1.0 / T);
            && issuance * (T * price + push) == wanted
            && (price < 0.0 <==> wanted < issuance * push)
  {
    var q, gap := wanted / issuance, wanted / issuance - push;
    var price := gap * (1.0 / T);
    QuotientOrder(wanted, issuance, push);
    assert price == gap / T;
    QuotientOrder(gap, T, 0.0);
    assert T * price + push == q;
  }

  // Issuance is the larger of what clears the market and what momentum pushes, never
  // negative: the trove weight T and the previous issuance cancel out.
  lemma IssuanceIsMaximum(s: State, p: Params, redeemed: real, momentum: real)
    requires p.T > 0.0 && s.issuance > 0.0
    ensures NewIssuance(s, p, NewPrice(s, p, redeemed, momentum), momentum) ==
            Max(0.0, Max(TOKEN_DEMAND - redeemed, MomentumIssuance(s, p, momentum)))
  {
    ClearingPriceSign(s, p, redeemed, momentum);
    if ClearingPrice(s, p, redeemed, momentum) < 0.0 {
      assert p.T * 0.0 + p.F * momentum == p.F * momentum;
    }
  }

  // The market clears exactly when the price is not clamped, or momentum does not push
  // issuance up.
  lemma MarketClearsIff(s: State, p: Params, redeemed: real, momentum: real)
    requires p.T > 0.0 && s.issuance > 0.0
    ensures NewIssuance(s, p, NewPrice(s, p, redeemed, momentum), momentum) == ClampAtZero(TOKEN_DEMAND - redeemed)
            <==> ClearingPrice(s, p, redeemed, momentum) >= 0.0 || p.F * momentum <= 0.0
  {
    IssuanceIsMaximum(s, p, redeemed, momentum);
    ClearingPriceSign(s, p, redeemed, momentum);
    ProductPositive(s.issuance, p.F * momentum);
  }

  // --- The price ceiling ---

  lemma ExcessNonNegative(price: real, supply: real)
    requires supply >= 0.0
    ensures ExcessIssuance(price, supply) >= 0.0
    ensures price > PRICE_CEILING ==> PRICE_CEILING * (supply + ExcessIssuance(price, supply)) == supply * price
  {
    if price > PRICE_CEILING {
      if supply > 0.0 {
        ProductOrder(0.0, price - PRICE_CEILING, supply);
      }
      QuotientOrder(supply * (price - PRICE_CEILING), PRICE_CEILING, 0.0);
      assert supply * (price - PRICE_CEILING) == supply * price - supply * PRICE_CEILING;
    }
  }

  lemma ExcessKeepsValue(price: real, cleared: real, redeemed: real)
    requires price > PRICE_CEILING && cleared >= 0.0 && redeemed >= 0.0
    ensures var before := NewSupply(cleared, redeemed);
            var after := NewSupply(cleared + ExcessIssuance(price, before), 0.0);
            PRICE_CEILING * after == price * before <==> redeemed == 0.0 || cleared == 0.0
  {
    ExcessNonNegative(price, NewSupply(cleared, redeemed));
  }

  // --- Every reachable state ---

  lemma StepKeepsInv(s: State, p: Params, momentum: real)
    requires InRange(p) && Inv(s, p)
    ensures Step(s, p, momentum).None? <==> s.issuance == 0.0
    ensures Step(s, p, momentum).Some? ==>
            Inv(Step(s, p, momentum).value, p) && Step(s, p, momentum).value.redeemed <= s.supply
  {
    if s.issuance != 0.0 {
      var redeemed := NewRedeemed(s, p);
      RedeemedBounds(s, p);
      FeeStaysBelowLimit(s, p);
      var price := NewPrice(s, p, redeemed, momentum);
      ExcessNonNegative(price, NewSupply(NewIssuance(s, p, price, momentum), redeemed));
    }
  }

  // --- What a step computes ---

  // The definitions, with the redeemed amount and the fee of the result named.
  lemma StepParts(s: State, p: Params, momentum: real) returns (r: State)
    requires InRange(p) && Inv(s, p) && s.issuance > 0.0
    ensures Step(s, p, momentum) == Some(r)
    ensures r.redeemed == NewRedeemed(s, p) && r.baseFee == NewBaseFee(s, p, NewRedeemed(s, p))
    ensures 0.0 <= r.redeemed <= s.supply
  {
    RedeemedBounds(s, p);
    r := Step(s, p, momentum).value;
  }

  // Redemption is the distance of price and fee from one, per token, as far as it is
  // allowed, and there is none where they reach one.
  predicate Redeems(s: State, p: Params, redeemed: real) {
    var worth := 1.0 - s.price - s.baseFee;
    && (redeemed > 0.0 <==> s.price + s.baseFee < 1.0 && p.maxRedemptionFraction > 0.0)
    && (worth <= 0.0 ==> redeemed == 0.0)
    && (0.0 < worth <= p.maxRedemptionFraction ==> redeemed == s.supply * worth)
    && (worth > p.maxRedemptionFraction ==> redeemed == s.supply * p.maxRedemptionFraction)
  }

  lemma StepRedeems(s: State, p: Params, momentum: real)
    requires InRange(p) && Inv(s, p) && s.issuance > 0.0
    ensures Step(s, p, momentum).Some? && Redeems(s, p, Step(s, p, momentum).value.redeemed)
  {
    var r := StepParts(s, p, momentum);
    RedeemedIs(s, p, 1.0 - s.price - s.baseFee);
  }

  lemma RedeemedIs(s: State, p: Params, worth: real)
    requires InRange(p) && s.supply > 0.0 && worth == 1.0 - s.price - s.baseFee
    ensures Redeems(s, p, NewRedeemed(s, p))
  {
    CappedIs(worth, p.maxRedemptionFraction, s.supply, WorthRedeeming(s), MaxRedeemable(s, p));
  }

  lemma CappedIs(worth: real, fraction: real, supply: real, wanted: real, limit: real)
    requires supply > 0.0 && fraction >= 0.0 && wanted == worth * supply && limit == supply * fraction
    ensures Capped(wanted, limit) > 0.0 <==> worth > 0.0 && fraction > 0.0
    ensures worth <= 0.0 ==> Capped(wanted, limit) == 0.0
    ensures 0.0 < worth <= fraction ==> Capped(wanted, limit) == wanted
    ensures worth > fraction ==> Capped(wanted, limit) == limit
  {
    ProductPositive(supply, worth);
    ProductPositive(supply, fraction);
    ProductOrder(worth, fraction, supply);
  }

  // The base fee gains half the redeemed share of the supply and decays by the factor D.
  predicate FeeMoves(s: State, p: Params, r: State) {
    2.0 * s.supply * r.baseFee == p.D * (2.0 * s.supply * s.baseFee + r.redeemed)
  }

  function Cut(D: real, fee: real): real {
    D * fee
  }

  lemma StepFee(s: State, p: Params, momentum: real)
    requires InRange(p) && Inv(s, p) && s.issuance > 0.0
    ensures Step(s, p, momentum).Some? && FeeMoves(s, p, Step(s, p, momentum).value)
  {
    var r := StepParts(s, p, momentum);
    FeeOf(s, p, r);
  }

  lemma FeeOf(s: State, p: Params, r: State)
    requires s.supply > 0.0 && r.baseFee == NewBaseFee(s, p, r.redeemed)
    ensures FeeMoves(s, p, r)
  {
    FeeEquation(s.baseFee, r.redeemed, s.supply, p.D, r.baseFee);
  }

  lemma FeeEquation(fee: real, redeemed: real, supply: real, D: real, next: real)
    requires supply > 0.0 && next == (fee + redeemed / (2.0 * supply)) * D
    ensures 2.0 * supply * next == D * (2.0 * supply * fee + redeemed)
  {
    var part := redeemed / (2.0 * supply);
    assert part * (2.0 * supply) == redeemed;
    calc {
      2.0 * supply * next;
      D * (2.0 * supply * fee) + D * (part * (2.0 * supply));
      D * (2.0 * supply * fee + redeemed);
    }
  }

  // So it never falls by more than that factor, and by just that when nothing is redeemed.
  lemma FeeCut(s: State, p: Params, r: State)
    requires s.supply > 0.0 && p.D > 0.0 && r.redeemed >= 0.0 && FeeMoves(s, p, r)
    ensures r.baseFee >= Cut(p.D, s.baseFee)
    ensures r.baseFee == Cut(p.D, s.baseFee) <==> r.redeemed == 0.0
  {
    FeeGap(s.baseFee, r.redeemed, s.supply, p.D, r.baseFee, Cut(p.D, s.baseFee));
  }

  lemma FeeGap(fee: real, redeemed: real, supply: real, D: real, next: real, cut: real)
    requires supply > 0.0 && D > 0.0 && redeemed >= 0.0 && cut == D * fee
    requires 2.0 * supply * next == D * (2.0 * supply * fee + redeemed)
    ensures next >= cut && (next == cut <==> redeemed == 0.0)
  {
    assert (2.0 * supply) * (next - cut) == D * redeemed;
    ProductPositive(D, redeemed);
    ProductPositive(2.0 * supply, next - cut);
  }

  // At this price issuance is what is demanded and not redeemed.
  predicate Clears(s: State, p: Params, momentum: real, redeemed: real, clearing: real) {
    s.issuance * (p.T * clearing + p.F * momentum) == 100.0 - redeemed
  }

  // The price is the one that clears the market, kept within 0 and 1.1. Up to 1.1 issuance
  // is what clears it, or what momentum pushes; above, the tokens left after redemption are
  // scaled up by the excess of the price.
  predicate PricedBy(s: State, p: Params, momentum: real, clearing: real, r: State) {
    var cleared := Max(0.0, 100.0 - r.redeemed);
    && r.price == (if clearing < 0.0 then 0.0 else if clearing > 1.1 then 1.1 else clearing)
    && r.supply == r.issuance
    && (clearing <= 1.1 ==> r.issuance == Max(cleared, s.issuance * (p.F * momentum)))
    && (clearing > 1.1 ==> 1.1 * (r.issuance - cleared) == Max(0.0, cleared - r.redeemed) * (clearing - 1.1))
  }

  lemma StepPrice(s: State, p: Params, momentum: real, clearing: real)
    requires InRange(p) && Inv(s, p) && s.issuance > 0.0 && Step(s, p, momentum).Some?
    requires Clears(s, p, momentum, Step(s, p, momentum).value.redeemed, clearing)
    ensures PricedBy(s, p, momentum, clearing, Step(s, p, momentum).value)
  {
    var r := StepParts(s, p, momentum);
    ClearingIsUnique(s, p, r.redeemed, momentum, clearing);
    StepSupply(s, p, momentum, r, clearing);
    PriceOf(s, p, momentum, clearing, r);
  }

  // What the price, issuance and supply of a step are made of.
  predicate Supplied(s: State, p: Params, momentum: real, clearing: real, r: State)
    requires p.T > 0.0 && s.issuance > 0.0
  {
    var cleared := NewIssuance(s, p, NewPrice(s, p, r.redeemed, momentum), momentum);
    && clearing == ClearingPrice(s, p, r.redeemed, momentum)
    && r.price == (if clearing < 0.0 then 0.0 else if clearing > 1.1 then 1.1 else clearing)
    && r.supply == r.issuance
    && r.issuance == if clearing > 1.1 then cleared + ExcessIssuance(clearing, NewSupply(cleared, r.redeemed))
                     else cleared
  }

  lemma StepSupply(s: State, p: Params, momentum: real, r: State, clearing: real)
    requires InRange(p) && Inv(s, p) && s.issuance > 0.0 && Step(s, p, momentum) == Some(r)
    requires clearing == ClearingPrice(s, p, r.redeemed, momentum) && r.redeemed == NewRedeemed(s, p)
    ensures Supplied(s, p, momentum, clearing, r)
  {
    var price := NewPrice(s, p, r.redeemed, momentum);
    ExcessNonNegative(price, NewSupply(NewIssuance(s, p, price, momentum), r.redeemed));
  }

  lemma PriceOf(s: State, p: Params, momentum: real, clearing: real, r: State)
    requires p.T > 0.0 && s.issuance > 0.0 && r.redeemed >= 0.0 && Supplied(s, p, momentum, clearing, r)
    ensures PricedBy(s, p, momentum, clearing, r)
  {
    IssuanceIsMaximum(s, p, r.redeemed, momentum);
    if clearing > 1.1 {
      MarketClearsIff(s, p, r.redeemed, momentum);
      ExcessIs(clearing, Max(0.0, Max(0.0, 100.0 - r.redeemed) - r.redeemed));
    }
  }

  lemma ClearingIsUnique(s: State, p: Params, redeemed: real, momentum: real, clearing: real)
    requires p.T > 0.0 && s.issuance > 0.0
    requires s.issuance * (p.T * clearing + p.F * momentum) == TOKEN_DEMAND - redeemed
    ensures clearing == ClearingPrice(s, p, redeemed, momentum)
  {
    var price := ClearingPrice(s, p, redeemed, momentum);
    ClearingPriceSign(s, p, redeemed, momentum);
    ProductOrder(p.T * clearing + p.F * momentum, p.T * price + p.F * momentum, s.issuance);
    ProductOrder(clearing, price, p.T);
  }

  lemma ExcessIs(price: real, supply: real)
    requires price > PRICE_CEILING
    ensures 1.1 * ExcessIssuance(price, supply) == supply * (price - 1.1)
  {
    QuotientOrder(supply * (price - PRICE_CEILING), PRICE_CEILING, 0.0);
  }

  // No step of the run redeems anything.
  predicate NeverRedeems(s: State, p: Params, momenta: seq<real>)
    decreases |momenta|
  {
    momenta == [] ||
    match Step(s, p, momenta[0])
    case None => true
    case Some(next) => next.redeemed == 0.0 && NeverRedeems(next, p, momenta[1..])
  }

  function DecayedFee(fee: real, D: real, n: nat): real {
    Pow(D, n) * fee
  }

  // After a run of n steps the fee is at least D^n times what it was, and exactly that if
  // and only if no step redeemed.
  lemma {:induction false} FeeDecaysIff(s: State, p: Params, momenta: seq<real>)
    requires InRange(p) && Inv(s, p) && Run(s, p, momenta).Some?
    ensures var fee := Run(s, p, momenta).value.baseFee;
            && fee >= DecayedFee(s.baseFee, p.D, |momenta|)
            && (fee == DecayedFee(s.baseFee, p.D, |momenta|) <==> NeverRedeems(s, p, momenta))
    decreases |momenta|
  {
    if momenta != [] {
      StepKeepsInv(s, p, momenta[0]);
      StepFee(s, p, momenta[0]);
      var next := Step(s, p, momenta[0]).value;
      FeeCut(s, p, next);
      FeeDecaysIff(next, p, momenta[1..]);
      DecayOnce(s.baseFee, next.baseFee, p.D, |momenta|);
    }
  }

  lemma DecayOnce(fee: real, next: real, D: real, n: nat)
    requires D > 0.0 && n > 0 && next >= Cut(D, fee)
    ensures DecayedFee(next, D, n - 1) >= DecayedFee(fee, D, n)
    ensures DecayedFee(next, D, n - 1) == DecayedFee(fee, D, n) <==> next == Cut(D, fee)
  {
    var power := Pow(D, n - 1);
    assert power * (D * fee) == (D * power) * fee;
    ProductOrder(Cut(D, fee), next, power);
  }

  // --- Runs ---

  // Over any run and any momenta the fee stays in [0, D / (2 - D)), the price in [0, 1.1]
  // and the supply equals the issuance.
  lemma {:induction false} RunKeepsInv(s: State, p: Params, momenta: seq<real>)
    requires InRange(p) && Inv(s, p)
    ensures Run(s, p, momenta).Some? ==> Inv(Run(s, p, momenta).value, p)
    decreases |momenta|
  {
    if momenta != [] {
      StepKeepsInv(s, p, momenta[0]);
      match Step(s, p, momenta[0])
      case None =>
      case Some(next) => RunKeepsInv(next, p, momenta[1..]);
    }
  }

  lemma FeeBelowOneThird(momenta: seq<real>)
    ensures Run(INITIAL, DEFAULTS, momenta).Some? ==>
            0.0 <= Run(INITIAL, DEFAULTS, momenta).value.baseFee < 1.0 / 3.0
  {
    RunKeepsInv(INITIAL, DEFAULTS, momenta);
  }

  // The step after this one divides by zero exactly when redemption exhausts the demand
  // and momentum issues nothing.
  lemma CollapseIff(s: State, p: Params, momentum: real, next: real)
    requires InRange(p) && Inv(s, p) && s.issuance > 0.0
    ensures Step(s, p, momentum).Some?
    ensures Step(Step(s, p, momentum).value, p, next).None?
            <==> TOKEN_DEMAND <= NewRedeemed(s, p) && p.F * momentum <= 0.0
  {
    var redeemed := NewRedeemed(s, p);
    IssuanceIsMaximum(s, p, redeemed, momentum);
    MomentumSign(s, p, momentum);
    StepIssuance(s, p, momentum);
  }

  lemma MomentumSign(s: State, p: Params, momentum: real)
    requires s.issuance > 0.0
    ensures MomentumIssuance(s, p, momentum) <= 0.0 <==> p.F * momentum <= 0.0
  {
    ProductPositive(s.issuance, p.F * momentum);
  }

  lemma StepIssuance(s: State, p: Params, momentum: real)
    requires InRange(p) && Inv(s, p) && s.issuance > 0.0
    ensures Step(s, p, momentum).Some?
    ensures var redeemed := NewRedeemed(s, p);
            Step(s, p, momentum).value.issuance == 0.0 <==>
            NewIssuance(s, p, NewPrice(s, p, redeemed, momentum), momentum) == 0.0
  {
    var redeemed := NewRedeemed(s, p);
    var price := NewPrice(s, p, redeemed, momentum);
    RedeemedBounds(s, p);
    NoExcessWithoutSupply(price, NewIssuance(s, p, price, momentum), redeemed);
  }

  lemma NoExcessWithoutSupply(price: real, cleared: real, redeemed: real)
    requires cleared >= 0.0 && redeemed >= 0.0
    ensures cleared + ExcessIssuance(price, NewSupply(cleared, redeemed)) == 0.0 <==> cleared == 0.0
  {
    ExcessNonNegative(price, NewSupply(cleared, redeemed));
  }

  // The price of a step before the ceiling applies, and the supply it would have had.
  function UncappedPrice(s: State, p: Params, momentum: real): real
    requires p.T != 0.0 && s.issuance != 0.0
  {
    NewPrice(s, p, NewRedeemed(s, p), momentum)
  }

  function UncappedSupply(s: State, p: Params, momentum: real): real
    requires p.T != 0.0 && s.issuance != 0.0
  {
    NewSupply(NewIssuance(s, p, UncappedPrice(s, p, momentum), momentum), NewRedeemed(s, p))
  }

  // The ceiling is meant to keep the market value of the supply: 1.1 times the new supply
  // should be the uncapped price times the supply there was. A step does so exactly when
  // nothing is redeemed or the whole demand is, because the redeemed tokens are added back.
  lemma CeilingKeepsValueIff(s: State, p: Params, momentum: real)
    requires InRange(p) && Inv(s, p) && s.issuance > 0.0 && UncappedPrice(s, p, momentum) > PRICE_CEILING
    ensures Step(s, p, momentum).Some? && Step(s, p, momentum).value.price == PRICE_CEILING
    ensures PRICE_CEILING * Step(s, p, momentum).value.supply ==
            UncappedPrice(s, p, momentum) * UncappedSupply(s, p, momentum)
            <==> NewRedeemed(s, p) == 0.0 || NewRedeemed(s, p) >= TOKEN_DEMAND
  {
    var redeemed, price := NewRedeemed(s, p), UncappedPrice(s, p, momentum);
    RedeemedBounds(s, p);
    MarketClearsIff(s, p, redeemed, momentum);
    ExcessKeepsValue(price, NewIssuance(s, p, price, momentum), redeemed);
  }

  // --- Failures the script reaches ---

  // In the script's first step nothing is redeemed and 100 would clear the market; with
  // momentum 10 the price is clamped and 300 are issued.
  lemma MarketDoesNotClear()
    ensures NewRedeemed(INITIAL, DEFAULTS) == 0.0 && ClampAtZero(TOKEN_DEMAND - 0.0) == 100.0
    ensures ClearingPrice(INITIAL, DEFAULTS, 0.0, 10.0) == -2.0
    ensures Step(INITIAL, DEFAULTS, 10.0) == Some(State(0.0, 0.0, 0.0, 300.0, 300.0))
  {
    assert NewRedeemed(INITIAL, DEFAULTS) == 0.0;
    assert NewBaseFee(INITIAL, DEFAULTS, 0.0) == 0.0;
    assert ClearingPrice(INITIAL, DEFAULTS, 0.0, 10.0) == -2.0;
    assert NewIssuance(INITIAL, DEFAULTS, 0.0, 10.0) == 300.0;
  }

  // The state after a period in which ether went up.
  const DISCOUNTED: State := State(0.0, 0.0, 0.7, 100.0, 100.0)

  lemma EtherGoesUp()
    ensures Step(INITIAL, DEFAULTS, 1.0) == Some(DISCOUNTED)
  {
    assert NewRedeemed(INITIAL, DEFAULTS) == 0.0;
    assert NewBaseFee(INITIAL, DEFAULTS, 0.0) == 0.0;
    assert NewPrice(INITIAL, DEFAULTS, 0.0, 1.0) == 0.7;
    assert NewIssuance(INITIAL, DEFAULTS, 0.7, 1.0) == 100.0;
  }

  lemma EtherGoesDown()
    ensures NewRedeemed(DISCOUNTED, DEFAULTS) == 30.0
    ensures UncappedPrice(DISCOUNTED, DEFAULTS, -2.0) == 1.3
    ensures UncappedSupply(DISCOUNTED, DEFAULTS, -2.0) == 40.0
  {
    assert WorthRedeeming(DISCOUNTED) == 30.0 && MaxRedeemable(DISCOUNTED, DEFAULTS) == 100.0;
    assert ClearingPrice(DISCOUNTED, DEFAULTS, 30.0, -2.0) == 1.3;
    IssuanceIsMaximum(DISCOUNTED, DEFAULTS, 30.0, -2.0);
    assert MomentumIssuance(DISCOUNTED, DEFAULTS, -2.0) == -60.0;
  }

  // The step hits the ceiling, and the market value of the supply changes.
  predicate LosesValue(s: State, p: Params, momentum: real)
    requires p.T != 0.0 && s.issuance != 0.0
  {
    && UncappedPrice(s, p, momentum) > PRICE_CEILING && Step(s, p, momentum).value.price == PRICE_CEILING
    && PRICE_CEILING * Step(s, p, momentum).value.supply !=
       UncappedPrice(s, p, momentum) * UncappedSupply(s, p, momentum)
  }

  lemma LosesValueIff(s: State, p: Params, momentum: real)
    requires InRange(p) && Inv(s, p) && s.issuance > 0.0 && UncappedPrice(s, p, momentum) > PRICE_CEILING
    ensures LosesValue(s, p, momentum) <==> 0.0 < NewRedeemed(s, p) < TOKEN_DEMAND
  {
    RedeemedBounds(s, p);
    CeilingKeepsValueIff(s, p, momentum);
  }

  // Ether up, then down: the second step redeems 30 of 100 tokens, would clear at 1.3, and
  // does not keep the value.
  lemma CeilingLosesValue()
    ensures Step(INITIAL, DEFAULTS, 1.0) == Some(DISCOUNTED) && Inv(DISCOUNTED, DEFAULTS)
    ensures LosesValue(DISCOUNTED, DEFAULTS, -2.0)
  {
    EtherGoesUp();
    DiscountedIsReachable();
    DownFrom(DISCOUNTED, DEFAULTS);
  }

  lemma DiscountedIsReachable()
    ensures Inv(DISCOUNTED, DEFAULTS)
  {
    FeeLimitFixed(DEFAULTS);
  }

  lemma DownFrom(s: State, p: Params)
    requires s == DISCOUNTED && p == DEFAULTS && Inv(s, p)
    ensures LosesValue(s, p, -2.0)
  {
    EtherGoesDown();
    LosesValueIff(s, p, -2.0);
  }

  // From the initial price and fee, a surge of ether followed by two periods at rest:
  // everything is redeemed, nothing is issued, and the script divides by zero.
  lemma ScriptDividesByZero(s: State)
    requires Inv(s, DEFAULTS) && s.price == INITIAL.price && s.baseFee == INITIAL.baseFee && s.issuance > 0.0
    ensures Run(s, DEFAULTS, [Push(s.issuance)] + [0.0]).Some?
    ensures Run(s, DEFAULTS, [Push(s.issuance)] + [0.0, 0.0]).None?
  {
    var pushed := PushedStep(s);
    EverythingRedeemed(pushed);
    RunCons(s, DEFAULTS, Push(s.issuance), [0.0]);
    RunCons(s, DEFAULTS, Push(s.issuance), [0.0, 0.0]);
  }

  lemma EverythingRedeemed(s: State)
    requires Inv(s, DEFAULTS) && s.issuance == 1000.0 && s.price == 0.0 && s.baseFee == 0.0
    ensures Run(s, DEFAULTS, [0.0]).Some? && Run(s, DEFAULTS, [0.0, 0.0]).None?
  {
    assert WorthRedeeming(s) == 1000.0 && MaxRedeemable(s, DEFAULTS) == 1000.0;
    CollapseIff(s, DEFAULTS, 0.0, 0.0);
    AtRestAfter(s);
  }

  lemma AtRestAfter(s: State)
    requires Inv(s, DEFAULTS) && Step(s, DEFAULTS, 0.0).Some?
    requires Step(Step(s, DEFAULTS, 0.0).value, DEFAULTS, 0.0).None?
    ensures Run(s, DEFAULTS, [0.0]).Some? && Run(s, DEFAULTS, [0.0, 0.0]).None?
  {
    RunCons(s, DEFAULTS, 0.0, []);
    RunCons(s, DEFAULTS, 0.0, [0.0]);
    RunCons(Step(s, DEFAULTS, 0.0).value, DEFAULTS, 0.0, []);
    assert [0.0, 0.0] == [0.0] + [0.0] && [0.0] == [0.0] + [];
  }

  // --- The bound of one third cannot be improved ---

  // A momentum that pushes the issuance to 1000 and the price to zero.
  function Push(issuance: real): real
    requires issuance > 0.0
  {
    1000.0 / (0.3 * issuance)
  }

  lemma PushedIssuance(s: State)
    requires Inv(s, DEFAULTS) && s.issuance > 0.0
    ensures var redeemed := NewRedeemed(s, DEFAULTS);
            var price := NewPrice(s, DEFAULTS, redeemed, Push(s.issuance));
            price == 0.0 && NewIssuance(s, DEFAULTS, price, Push(s.issuance)) == 1000.0
  {
    var redeemed := NewRedeemed(s, DEFAULTS);
    RedeemedBounds(s, DEFAULTS);
    assert MomentumIssuance(s, DEFAULTS, Push(s.issuance)) == 1000.0;
    ClearingPriceSign(s, DEFAULTS, redeemed, Push(s.issuance));
    IssuanceIsMaximum(s, DEFAULTS, redeemed, Push(s.issuance));
  }

  lemma PushedFee(s: State)
    requires Inv(s, DEFAULTS) && s.issuance > 0.0
    ensures var fee := NewBaseFee(s, DEFAULTS, NewRedeemed(s, DEFAULTS));
            && (s.price == 0.0 ==> fee == (1.0 + s.baseFee) / 4.0)
            && (s.price == 1.0 && s.baseFee == 0.0 ==> fee == 0.0)
  {
    if s.price == 0.0 {
      var redeemed := NewRedeemed(s, DEFAULTS);
      ShareBounds(1.0 - s.baseFee, s.supply, WorthRedeeming(s));
      assert redeemed == (1.0 - s.baseFee) * s.supply;
      QuotientOrder(redeemed, 2.0 * s.supply, (1.0 - s.baseFee) / 2.0);
    }
  }

  lemma PushedStep(s: State) returns (r: State)
    requires Inv(s, DEFAULTS) && s.issuance > 0.0
    ensures Step(s, DEFAULTS, Push(s.issuance)) == Some(r) && Inv(r, DEFAULTS)
    ensures r.price == 0.0 && r.issuance == 1000.0
    ensures s.price == 0.0 ==> r.baseFee == (1.0 + s.baseFee) / 4.0
    ensures s.price == 1.0 && s.baseFee == 0.0 ==> r.baseFee == 0.0
  {
    StepKeepsInv(s, DEFAULTS, Push(s.issuance));
    PushedIssuance(s);
    PushedFee(s);
    r := Step(s, DEFAULTS, Push(s.issuance)).value;
  }

  function Pushes(n: nat): seq<real> {
    if n == 0 then [] else [Push(1000.0)] + Pushes(n - 1)
  }

  lemma RunCons(s: State, p: Params, momentum: real, rest: seq<real>)
    ensures Run(s, p, [momentum] + rest) ==
            match Step(s, p, momentum)
            case None => None
            case Some(next) => Run(next, p, rest)
  {
    assert ([momentum] + rest)[1..] == rest;
  }

  // From the initial price and fee, for every n, there is a run whose fee is (1 - 4^-n) / 3.
  lemma FeeBoundIsTight(s: State, n: nat)
    requires Inv(s, DEFAULTS) && s.price == INITIAL.price && s.baseFee == INITIAL.baseFee && s.issuance > 0.0
    ensures var r := Run(s, DEFAULTS, [Push(s.issuance)] + Pushes(n));
            r.Some? && r.value.baseFee == TightFee(n)
  {
    var next := PushedStep(s);
    RunCons(s, DEFAULTS, Push(s.issuance), Pushes(n));
    PushedRun(next, 0, n, n);
  }

  function TightFee(n: nat): real {
    (1.0 - Pow(0.25, n)) / 3.0
  }

  lemma {:induction false} PushedRun(s: State, k: nat, n: nat, total: nat)
    requires Inv(s, DEFAULTS) && s.price == 0.0 && s.issuance == 1000.0
    requires s.baseFee == TightFee(k) && total == k + n
    ensures Run(s, DEFAULTS, Pushes(n)).Some?
    ensures Run(s, DEFAULTS, Pushes(n)).value.baseFee == TightFee(total)
    decreases n
  {
    if n > 0 {
      var next := PushedStep(s);
      RunCons(s, DEFAULTS, Push(s.issuance), Pushes(n - 1));
      PushedRun(next, k + 1, n - 1, total);
    }
  }

  // --- The script ---

  class Data {
    var ethPrice: seq<real>
    var momentum: seq<real>
    var baseFee: seq<real>
    var redeemedAmount: seq<real>
    var tokenPrice: seq<real>
    var troveIssuance: seq<real>
    var tokenSupply: seq<real>
    var tokenDemand: real

    // All series have the same positive length.
    predicate Valid()
      reads this
    {
      0 < |ethPrice| == |momentum| == |baseFee| == |redeemedAmount| == |tokenPrice| == |troveIssuance| == |tokenSupply|
    }

    function Last(): State
      requires Valid()
      reads this
    {
      var i := |ethPrice| - 1;
      State(baseFee[i], redeemedAmount[i], tokenPrice[i], troveIssuance[i], tokenSupply[i])
    }

    constructor ()
      ensures Valid() && |ethPrice| == 1 && Last() == INITIAL && tokenDemand == TOKEN_DEMAND
    {
      ethPrice, momentum, baseFee, redeemedAmount := [500.0], [0.0], [0.0], [0.0];
      tokenPrice, troveIssuance, tokenSupply, tokenDemand := [1.0], [100.0], [100.0], 100.0;
    }

    // One iteration of the script; it raises on a zero issuance, leaving the series alone.
    method Advance(p: Params, newEthPrice: real, newMomentum: real) returns (ok: bool)
      requires Valid()
      modifies this
      ensures Valid()
      ensures Step(old(Last()), p, newMomentum) == if ok then Some(Last()) else None
      ensures ok ==> ethPrice == old(ethPrice) + [newEthPrice] && momentum == old(momentum) + [newMomentum]
      ensures ok ==> old(baseFee) <= baseFee && old(redeemedAmount) <= redeemedAmount
                     && old(tokenPrice) <= tokenPrice && old(troveIssuance) <= troveIssuance
                     && old(tokenSupply) <= tokenSupply
      ensures !ok ==> && ethPrice == old(ethPrice) && momentum == old(momentum) && baseFee == old(baseFee)
                      && redeemedAmount == old(redeemedAmount) && tokenPrice == old(tokenPrice)
                      && troveIssuance == old(troveIssuance) && tokenSupply == old(tokenSupply)
      ensures tokenDemand == TOKEN_DEMAND
    {
      var s := Last();
      var redeemed := NewRedeemed(s, p);
      var fee := NewBaseFee(s, p, redeemed);
      tokenDemand := TOKEN_DEMAND;
      if p.T == 0.0 || s.issuance == 0.0 {
        return false;
      }
      var price := NewPrice(s, p, redeemed, newMomentum);
      var issuance := NewIssuance(s, p, price, newMomentum);
      var supply := NewSupply(issuance, redeemed);
      var excess := ExcessIssuance(price, supply);
      if price > PRICE_CEILING {
        price := PRICE_CEILING;
      }
      issuance := issuance + excess;
      supply := NewSupply(issuance, 0.0);

      ethPrice := ethPrice + [newEthPrice];
      momentum := momentum + [newMomentum];
      redeemedAmount := redeemedAmount + [redeemed];
      baseFee := baseFee + [fee];
      tokenPrice := tokenPrice + [price];
      troveIssuance := troveIssuance + [issuance];
      tokenSupply := tokenSupply + [supply];
      ok := true;
    }

    // The script: as many iterations as there are inputs, unless one raises.
    method RunScript(p: Params, inputs: seq<(real, real)>) returns (ok: bool)
      requires Valid() && InRange(p) && Inv(Last(), p)
      modifies this
      ensures Valid() && Inv(Last(), p)
      ensures Run(old(Last()), p, seq(|inputs|, i requires 0 <= i < |inputs| => inputs[i].1)) ==
              if ok then Some(Last()) else None
      ensures |ethPrice| <= |old(ethPrice)| + |inputs|
      ensures ok ==> |ethPrice| == |old(ethPrice)| + |inputs|
    {
      ghost var momenta := seq(|inputs|, i requires 0 <= i < |inputs| => inputs[i].1);
      ghost var outcome := Run(Last(), p, momenta);
      assert momenta[0..] == momenta;
      for i := 0 to |inputs|
        invariant Valid() && Inv(Last(), p) && |ethPrice| == |old(ethPrice)| + i
        invariant outcome == Run(Last(), p, momenta[i..])
      {
        assert momenta[i..][0] == inputs[i].1 && momenta[i..][1..] == momenta[i + 1..];
        StepKeepsInv(Last(), p, inputs[i].1);
        var stepped := Advance(p, inputs[i].0, inputs[i].1);
        if !stepped {
          return false;
        }
      }
      ok := true;
    }
  }
}
