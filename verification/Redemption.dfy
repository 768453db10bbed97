/**
 The redemption loop of `price_stabilizer`: close the riskiest troves, cheapest ratio
 first, and take what is left over from the next one.
 */
module Redemption {
  import opened Powers
  import opened Troves

  // `OutOfTroves` is the IndexError of `troves.index[0]` on an empty table.
  datatype Outcome = OutOfTroves | Redeemed(troves: seq<Trove>, count: nat)

  predicate SortedByCR(ts: seq<Trove>) {
    forall i, j :: 0 <= i < j < |ts| ==> ts[i].crCurrent <= ts[j].crCurrent
  }

  // How many leading rows are closed whole before the pool runs out.
  function FitCount(ts: seq<Trove>, pool: real): (k: nat)
    ensures k <= |ts|
  {
    if ts == [] || pool < ts[0].supply then 0 else 1 + FitCount(ts[1..], pool - ts[0].supply)
  }

  function TakeFrom(t: Trove, residual: real, etherPrice: real): Trove
    requires etherPrice != 0.0 && residual < t.supply
  {
    var supply := t.supply - residual;
    var quantity := t.etherQuantity - residual / etherPrice;
    t.(supply := supply, etherQuantity := quantity, crCurrent := etherPrice * quantity / supply)
  }

  function Redeem(ts: seq<Trove>, pool: real, etherPrice: real): Outcome
    requires etherPrice != 0.0
  {
    var k := FitCount(ts, pool);
    if k == |ts| then OutOfTroves
    else
      FitCountPrefix(ts, pool);
      Redeemed([TakeFrom(ts[k], pool - Total(ts[..k]), etherPrice)] + ts[k + 1..], k)
  }

  // The row at which the loop stops is the first one that does not fit.
  lemma {:induction false} FitCountPrefix(ts: seq<Trove>, pool: real)
    ensures var k := FitCount(ts, pool);
            k < |ts| ==> pool - Total(ts[..k]) < ts[k].supply
  {
    var k := FitCount(ts, pool);
    if 0 < k < |ts| {
      FitCountPrefix(ts[1..], pool - ts[0].supply);
      assert ts[..k][1..] == ts[1..][..k - 1];
    }
  }

  // The loop itself, over a table already sorted by `CR_current`.
  method RedeemCheapest(sorted: seq<Trove>, pool: real, etherPrice: real) returns (r: Outcome)
    requires etherPrice != 0.0
    ensures r == Redeem(sorted, pool, etherPrice)
  {
    var troves := sorted;
    if troves == [] {
      return OutOfTroves;
    }
    var working := troves[0].supply;
    var redempted := working;
    var count := 0;
    assert sorted[..0] == [];
    while redempted <= pool
      invariant count < |sorted| && troves == sorted[count..]
      invariant working == sorted[count].supply
      invariant redempted == Total(sorted[..count]) + working
      invariant FitCount(sorted, pool) == count + FitCount(troves, pool - Total(sorted[..count]))
      decreases |sorted| - count
    {
      assert sorted[..count + 1] == sorted[..count] + [sorted[count]];
      TotalSnoc(sorted[..count], sorted[count]);
      troves := troves[1..];
      count := count + 1;
      if troves == [] {
        return OutOfTroves;
      }
      working := troves[0].supply;
      redempted := redempted + working;
    }
    redempted := redempted - working;
    var residual := pool - redempted;
    r := Redeemed([TakeFrom(troves[0], residual, etherPrice)] + troves[1..], count);
  }

  // --- What the loop achieves ---

  lemma {:induction false} PrefixOrder(ts: seq<Trove>, i: nat, j: nat)
    requires AllSound(ts) && i <= j <= |ts|
    ensures Total(ts[..i]) <= Total(ts[..j])
  {
    assert ts[..j] == ts[..i] + ts[i..j];
    TotalAppend(ts[..i], ts[i..j]);
    TotalNonNegative(ts[i..j]);
  }

  lemma {:induction false} FitCountFits(ts: seq<Trove>, pool: real)
    requires pool >= 0.0
    ensures Total(ts[..FitCount(ts, pool)]) <= pool
  {
    var k := FitCount(ts, pool);
    if k > 0 {
      FitCountFits(ts[1..], pool - ts[0].supply);
      assert ts[..k][1..] == ts[1..][..k - 1];
    }
  }

  // `n_redempt` is the largest number of cheapest-first rows the pool pays for in full.
  lemma FitCountIsLargest(ts: seq<Trove>, pool: real, j: nat)
    requires AllSound(ts) && pool >= 0.0 && j <= |ts|
    ensures j <= FitCount(ts, pool) <==> Total(ts[..j]) <= pool
  {
    var k := FitCount(ts, pool);
    FitCountFits(ts, pool);
    FitCountPrefix(ts, pool);
    if j <= k {
      PrefixOrder(ts, j, k);
    } else {
      assert ts[..k + 1] == ts[..k] + [ts[k]];
      TotalSnoc(ts[..k], ts[k]);
      PrefixOrder(ts, k + 1, j);
    }
  }

  // The loop runs off the end of the table exactly when the whole supply is asked for.
  lemma RunsOffIff(ts: seq<Trove>, pool: real, etherPrice: real)
    requires AllSound(ts) && pool >= 0.0 && etherPrice != 0.0
    ensures Redeem(ts, pool, etherPrice).OutOfTroves? <==> Total(ts) <= pool
  {
    FitCountIsLargest(ts, pool, |ts|);
    assert ts[..|ts|] == ts;
  }

  // Exactly the pool leaves circulation, whenever the loop finishes.
  lemma RedemptionConserves(ts: seq<Trove>, pool: real, etherPrice: real)
    requires etherPrice != 0.0 && Redeem(ts, pool, etherPrice).Redeemed?
    ensures Total(Redeem(ts, pool, etherPrice).troves) == Total(ts) - pool
  {
    var k := FitCount(ts, pool);
    FitCountPrefix(ts, pool);
    var t := TakeFrom(ts[k], pool - Total(ts[..k]), etherPrice);
    assert ts == ts[..k] + ([ts[k]] + ts[k + 1..]);
    TotalAppend(ts[..k], [ts[k]] + ts[k + 1..]);
    assert ([ts[k]] + ts[k + 1..])[1..] == ts[k + 1..];
    assert ([t] + ts[k + 1..])[1..] == ts[k + 1..];
  }

  lemma TakeFromCollateral(t: Trove, residual: real, etherPrice: real)
    requires etherPrice > 0.0 && residual < t.supply
    ensures etherPrice * TakeFrom(t, residual, etherPrice).etherQuantity == etherPrice * t.etherQuantity - residual
  {
    QuotientOrder(residual, etherPrice, 0.0);
  }

  // The partially redeemed trove keeps positive debt; its ratio does not fall exactly
  // when its collateral covers its debt or nothing is taken from it.
  lemma PartialRedemptionRatio(t: Trove, residual: real, etherPrice: real)
    requires etherPrice > 0.0 && 0.0 <= residual < t.supply
    ensures var r := TakeFrom(t, residual, etherPrice);
            && r.supply > 0.0 && r.crCurrent == etherPrice * r.etherQuantity / r.supply
            && (etherPrice * t.etherQuantity / t.supply <= r.crCurrent
                <==> residual == 0.0 || t.supply <= etherPrice * t.etherQuantity)
  {
    TakeFromCollateral(t, residual, etherPrice);
    RatioOfDifference(etherPrice * t.etherQuantity, t.supply, residual);
  }

  lemma RatioOfDifference(value: real, debt: real, taken: real)
    requires 0.0 <= taken < debt
    ensures value / debt <= (value - taken) / (debt - taken) <==> taken == 0.0 || debt <= value
  {
    var before := value / debt;
    QuotientOrder(value, debt, 1.0);
    QuotientOrder(value - taken, debt - taken, before);
    // before <= after  <==>  before * (debt - taken) <= value - taken  <==>  taken <= before * taken
    assert before * (debt - taken) == value - before * taken;
    if taken > 0.0 {
      ProductOrder(before, 1.0, taken);
    }
  }

  // What an amount of ether is worth.
  function Worth(etherPrice: real, quantity: real): real {
    etherPrice * quantity
  }

  // The row left in front pays out ether worth exactly the debt it loses, which is what the
  // pool leaves after the closed rows; its ratio is refreshed and its owner's data kept. All
  // later rows are untouched.
  predicate FirstPaysOut(ts: seq<Trove>, left: seq<Trove>, k: nat, pool: real, etherPrice: real) {
    && k < |ts| && left != [] && left[1..] == ts[k + 1..]
    && var was, now, taken := ts[k], left[0], pool - Total(ts[..k]);
       && 0.0 <= taken < was.supply && now.supply == was.supply - taken
       && Worth(etherPrice, now.etherQuantity) == Worth(etherPrice, was.etherQuantity) - taken
       && now.crCurrent * now.supply == Worth(etherPrice, now.etherQuantity)
       && now.etherPrice == was.etherPrice && now.crInitial == was.crInitial
       && now.inattention == was.inattention
  }

  lemma RedeemPaysOut(ts: seq<Trove>, pool: real, etherPrice: real)
    requires AllSound(ts) && pool >= 0.0 && etherPrice > 0.0 && Redeem(ts, pool, etherPrice).Redeemed?
    ensures var r := Redeem(ts, pool, etherPrice);
            FirstPaysOut(ts, r.troves, r.count, pool, etherPrice)
  {
    var k := FitCount(ts, pool);
    FitCountPrefix(ts, pool);
    FitCountFits(ts, pool);
    TakingPaysOut(ts[k], pool - Total(ts[..k]), etherPrice);
  }

  lemma TakingPaysOut(t: Trove, taken: real, etherPrice: real)
    requires etherPrice > 0.0 && taken < t.supply
    ensures var now := TakeFrom(t, taken, etherPrice);
            && Worth(etherPrice, now.etherQuantity) == Worth(etherPrice, t.etherQuantity) - taken
            && now.crCurrent * now.supply == Worth(etherPrice, now.etherQuantity)
  {
    TakeFromCollateral(t, taken, etherPrice);
    QuotientOrder(etherPrice * TakeFrom(t, taken, etherPrice).etherQuantity, t.supply - taken, 0.0);
  }

  // All ether of a table.
  function Ether(ts: seq<Trove>): real {
    if ts == [] then 0.0 else ts[0].etherQuantity + Ether(ts[1..])
  }

  lemma {:induction false} EtherAppend(a: seq<Trove>, b: seq<Trove>)
    ensures Ether(a + b) == Ether(a) + Ether(b)
  {
    if a == [] {
      assert a + b == b;
    } else {
      assert (a + b)[1..] == a[1..] + b;
      EtherAppend(a[1..], b);
    }
  }

  lemma EtherWithout(b: seq<Trove>, i: nat)
    requires i < |b|
    ensures Ether(b) == b[i].etherQuantity + Ether(b[..i] + b[i + 1..])
  {
    EtherSplit(b, i);
    EtherAppend(b[..i], b[i + 1..]);
  }

  lemma {:induction false} EtherOfPermutation(a: seq<Trove>, b: seq<Trove>)
    requires multiset(a) == multiset(b)
    ensures Ether(a) == Ether(b)
    decreases |a|
  {
    assert |multiset(a)| == |multiset(b)|;
    if a != [] {
      var i := FirstElsewhere(a, b);
      EtherOfPermutation(a[1..], b[..i] + b[i + 1..]);
      EtherWithout(b, i);
    }
  }

  // Then the ether that leaves the table is all of the closed rows', and worth as much as
  // the rest of the pool.
  lemma TablePaysOut(ts: seq<Trove>, left: seq<Trove>, k: nat, pool: real, etherPrice: real)
    requires FirstPaysOut(ts, left, k, pool, etherPrice)
    ensures Worth(etherPrice, Ether(ts) - Ether(left)) ==
            Worth(etherPrice, Ether(ts[..k])) + (pool - Total(ts[..k]))
  {
    EtherSplit(ts, k);
    EtherSplit(left, 0);
    assert left[..0] == [];
    ValueSplit(etherPrice, Ether(ts[..k]), ts[k].etherQuantity, left[0].etherQuantity, Ether(left[1..]));
  }

  lemma EtherSplit(ts: seq<Trove>, k: nat)
    requires k < |ts|
    ensures Ether(ts) == Ether(ts[..k]) + ts[k].etherQuantity + Ether(ts[k + 1..])
  {
    assert ts == ts[..k] + ts[k..];
    EtherAppend(ts[..k], ts[k..]);
    assert ts[k..][1..] == ts[k + 1..];
  }

  lemma ValueSplit(etherPrice: real, closed: real, was: real, now: real, rest: real)
    ensures Worth(etherPrice, (closed + was + rest) - (now + rest)) ==
            Worth(etherPrice, closed) + (Worth(etherPrice, was) - Worth(etherPrice, now))
  {
  }

  lemma SafeAfterTaking(t: Trove, residual: real, etherPrice: real)
    requires Safe(t, etherPrice) && etherPrice > 0.0 && 0.0 <= residual < t.supply
    ensures Safe(TakeFrom(t, residual, etherPrice), etherPrice)
  {
    TakeFromCollateral(t, residual, etherPrice);
  }

  // Redemption from any ordering of a safe table leaves a safe table.
  lemma RedemptionKeepsSafe(ts: seq<Trove>, pool: real, etherPrice: real)
    requires AllSafe(ts, etherPrice) && etherPrice > 0.0 && 0.0 <= pool < Total(ts)
    ensures Redeem(ts, pool, etherPrice).Redeemed?
    ensures AllSafe(Redeem(ts, pool, etherPrice).troves, etherPrice)
  {
    RunsOffIff(ts, pool, etherPrice);
    FitCountFits(ts, pool);
    FitCountPrefix(ts, pool);
    var k := FitCount(ts, pool);
    SafeAfterTaking(ts[k], pool - Total(ts[..k]), etherPrice);
  }
}
