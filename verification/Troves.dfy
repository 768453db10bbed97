/**
 The trove table of the macro model and the row-wise operations on it: marking to
 market, liquidation, closing, adjusting and opening.
 */
module Troves {
  import opened Powers

  // One row of the `troves` data frame.
  datatype Trove = Trove(
    etherPrice: real,
    etherQuantity: real,
    crInitial: real,
    supply: real,
    inattention: real,
    crCurrent: real
  )

  const MIN_CR: real := 1.1

  // `troves['Supply'].sum()`
  function Total(ts: seq<Trove>): real {
    if ts == [] then 0.0 else ts[0].supply + Total(ts[1..])
  }

  // What every row of a table reached by the simulation satisfies.
  predicate Sound(t: Trove) {
    t.supply > 0.0 && t.crInitial >= MIN_CR && t.inattention > 0.0
  }

  // The row carries the given ether price and is collateralised at 110% or more.
  predicate Safe(t: Trove, etherPrice: real) {
    Sound(t) && t.etherPrice == etherPrice && etherPrice * t.etherQuantity >= MIN_CR * t.supply
  }

  // `CR_current` is the actual ratio of the row.
  predicate Fresh(t: Trove) {
    t.supply != 0.0 && t.crCurrent == t.etherPrice * t.etherQuantity / t.supply
  }

  predicate AllSound(ts: seq<Trove>) {
    forall i :: 0 <= i < |ts| ==> Sound(ts[i])
  }

  predicate AllSafe(ts: seq<Trove>, etherPrice: real) {
    forall i :: 0 <= i < |ts| ==> Safe(ts[i], etherPrice)
  }

  lemma {:induction false} TotalAppend(a: seq<Trove>, b: seq<Trove>)
    ensures Total(a + b) == Total(a) + Total(b)
  {
    if a == [] {
      assert a + b == b;
    } else {
      assert (a + b)[1..] == a[1..] + b;
      TotalAppend(a[1..], b);
    }
  }

  lemma TotalSnoc(a: seq<Trove>, t: Trove)
    ensures Total(a + [t]) == Total(a) + t.supply
  {
    TotalAppend(a, [t]);
    assert Total([t]) == t.supply + Total([t][1..]);
  }

  lemma {:induction false} TotalNonNegative(ts: seq<Trove>)
    requires AllSound(ts)
    ensures Total(ts) >= 0.0
    ensures ts != [] ==> Total(ts) > 0.0
  {
    if ts != [] {
      TotalNonNegative(ts[1..]);
      assert Sound(ts[0]);
    }
  }

  lemma {:induction false} SameSupplies(a: seq<Trove>, b: seq<Trove>)
    requires |a| == |b| && forall i :: 0 <= i < |a| ==> a[i].supply == b[i].supply
    ensures Total(a) == Total(b)
  {
    if a != [] {
      SameSupplies(a[1..], b[1..]);
    }
  }

  // Where the first row of one order is found in another, which without it is an order of
  // the other rows.
  lemma FirstElsewhere(a: seq<Trove>, b: seq<Trove>) returns (i: nat)
    requires multiset(a) == multiset(b) && a != []
    ensures i < |b| && b[i] == a[0] && multiset(a[1..]) == multiset(b[..i] + b[i + 1..])
  {
    assert a[0] in multiset(b);
    i :| 0 <= i < |b| && b[i] == a[0];
    assert a == [a[0]] + a[1..];
    assert b == b[..i] + ([b[i]] + b[i + 1..]);
    calc {
      multiset(a[1..]);
      multiset(a) - multiset{a[0]};
      multiset(b) - multiset{b[i]};
      multiset(b[..i] + b[i + 1..]);
    }
  }

  lemma TotalWithout(b: seq<Trove>, i: nat)
    requires i < |b|
    ensures Total(b) == b[i].supply + Total(b[..i] + b[i + 1..])
  {
    assert b == b[..i] + ([b[i]] + b[i + 1..]);
    TotalAppend(b[..i], b[i + 1..]);
    TotalAppend(b[..i], [b[i]] + b[i + 1..]);
    assert ([b[i]] + b[i + 1..])[1..] == b[i + 1..];
  }

  // The order of the rows does not matter to the supply in circulation.
  lemma {:induction false} TotalOfPermutation(a: seq<Trove>, b: seq<Trove>)
    requires multiset(a) == multiset(b)
    ensures Total(a) == Total(b) && |a| == |b|
    decreases |a|
  {
    assert |multiset(a)| == |multiset(b)|;
    if a != [] {
      var i := FirstElsewhere(a, b);
      TotalOfPermutation(a[1..], b[..i] + b[i + 1..]);
      TotalWithout(b, i);
    }
  }

  lemma PermutationMember(a: seq<Trove>, b: seq<Trove>, i: nat) returns (j: nat)
    requires multiset(a) == multiset(b) && i < |a|
    ensures j < |b| && b[j] == a[i]
  {
    assert a[i] in multiset(b);
    j :| 0 <= j < |b| && b[j] == a[i];
  }

  // --- Marking to market and liquidation ---

  // `troves['Ether_Price'] = p` followed by the refresh of `CR_current`.
  function Mark(t: Trove, etherPrice: real): Trove
    requires Sound(t)
  {
    t.(etherPrice := etherPrice, crCurrent := etherPrice * t.etherQuantity / t.supply)
  }

  function MarkToMarket(ts: seq<Trove>, etherPrice: real): (r: seq<Trove>)
    requires AllSound(ts)
    ensures |r| == |ts|
  {
    seq(|ts|, i requires 0 <= i < |ts| => Mark(ts[i], etherPrice))
  }

  // The two boolean-mask selections of `liquidate_troves`.
  function Survivors(ts: seq<Trove>): seq<Trove> {
    if ts == [] then []
    else if ts[0].crCurrent >= MIN_CR then [ts[0]] + Survivors(ts[1..])
    else Survivors(ts[1..])
  }

  function Liquidated(ts: seq<Trove>): seq<Trove> {
    if ts == [] then []
    else if ts[0].crCurrent < MIN_CR then [ts[0]] + Liquidated(ts[1..])
    else Liquidated(ts[1..])
  }

  lemma {:induction false} LiquidationMembers(ts: seq<Trove>, t: Trove)
    ensures t in Survivors(ts) <==> t in ts && t.crCurrent >= MIN_CR
    ensures t in Liquidated(ts) <==> t in ts && t.crCurrent < MIN_CR
  {
    if ts != [] {
      LiquidationMembers(ts[1..], t);
      assert t in ts <==> t == ts[0] || t in ts[1..];
    }
  }

  lemma {:induction false} LiquidationSplitsDebt(ts: seq<Trove>)
    ensures Total(ts) == Total(Survivors(ts)) + Total(Liquidated(ts))
    ensures |ts| == |Survivors(ts)| + |Liquidated(ts)|
  {
    if ts != [] {
      LiquidationSplitsDebt(ts[1..]);
    }
  }

  lemma MarkedRow(t: Trove, etherPrice: real)
    requires Sound(t)
    ensures Fresh(Mark(t, etherPrice)) && Mark(t, etherPrice).supply == t.supply
    ensures Mark(t, etherPrice).crCurrent >= MIN_CR <==> Safe(Mark(t, etherPrice), etherPrice)
  {
    QuotientOrder(etherPrice * t.etherQuantity, t.supply, MIN_CR);
  }

  // Marking sets the price and refreshes the ratio; the owner's data, the debt and the
  // collateral stay.
  lemma MarkKeeps(ts: seq<Trove>, etherPrice: real, i: nat)
    requires AllSound(ts) && i < |ts|
    ensures var was, now := ts[i], MarkToMarket(ts, etherPrice)[i];
            && now.supply == was.supply && now.etherQuantity == was.etherQuantity
            && now.crInitial == was.crInitial && now.inattention == was.inattention
            && now.etherPrice == etherPrice && now.crCurrent * was.supply == etherPrice * was.etherQuantity
  {
    QuotientOrder(etherPrice * ts[i].etherQuantity, ts[i].supply, 0.0);
  }

  // After liquidation a row is kept exactly when its collateral, at the new price, is
  // worth 110% of its debt, and the debt of the table splits accordingly.
  lemma LiquidationKeepsExactlySafe(ts: seq<Trove>, etherPrice: real)
    requires AllSound(ts)
    ensures var marked := MarkToMarket(ts, etherPrice);
            && AllSafe(Survivors(marked), etherPrice)
            && (forall t <- Survivors(marked) :: Fresh(t))
            && (forall t <- Liquidated(marked) :: !Safe(t, etherPrice))
            && Total(ts) == Total(Survivors(marked)) + Total(Liquidated(marked))
  {
    var marked := MarkToMarket(ts, etherPrice);
    LiquidationSplitsDebt(marked);
    SameSupplies(marked, ts);
    forall t: Trove
      ensures t in Survivors(marked) ==> Fresh(t) && Safe(t, etherPrice)
      ensures t in Liquidated(marked) ==> !Safe(t, etherPrice)
    {
      LiquidationMembers(marked, t);
      if t in marked {
        var i :| 0 <= i < |marked| && marked[i] == t;
        MarkedRow(ts[i], etherPrice);
      }
    }
    AllSafeByMembership(Survivors(marked), etherPrice);
  }

  lemma AllSafeByMembership(ts: seq<Trove>, etherPrice: real)
    requires forall t <- ts :: Safe(t, etherPrice)
    ensures AllSafe(ts, etherPrice)
  {
    forall i | 0 <= i < |ts|
      ensures Safe(ts[i], etherPrice)
    {
      assert ts[i] in ts;
    }
  }

  // The collateral is worth 110% of the debt at a price.
  predicate Covered(t: Trove, etherPrice: real) {
    etherPrice * t.etherQuantity >= 1.1 * t.supply
  }

  // How many troves have collateral worth 110% of their debt at a price.
  function CountSafe(ts: seq<Trove>, etherPrice: real): nat {
    if ts == [] then 0
    else (if Covered(ts[0], etherPrice) then 1 else 0) + CountSafe(ts[1..], etherPrice)
  }

  lemma {:induction false} SurvivorCount(ts: seq<Trove>, etherPrice: real)
    requires AllSound(ts)
    ensures |Survivors(MarkToMarket(ts, etherPrice))| == CountSafe(ts, etherPrice)
  {
    if ts != [] {
      var marked := MarkToMarket(ts, etherPrice);
      assert marked[1..] == MarkToMarket(ts[1..], etherPrice);
      SurvivorCount(ts[1..], etherPrice);
      MarkedRow(ts[0], etherPrice);
    }
  }

  // A safe trove is found among the survivors behind the safe ones before it.
  lemma {:induction false} SurvivorRow(ts: seq<Trove>, etherPrice: real, i: nat)
    requires AllSound(ts) && i < |ts| && Covered(ts[i], etherPrice)
    ensures var kept, k := Survivors(MarkToMarket(ts, etherPrice)), CountSafe(ts[..i], etherPrice);
            k < |kept| && kept[k] == Mark(ts[i], etherPrice)
  {
    var marked := MarkToMarket(ts, etherPrice);
    assert marked[1..] == MarkToMarket(ts[1..], etherPrice);
    MarkedRow(ts[0], etherPrice);
    if i > 0 {
      SurvivorRow(ts[1..], etherPrice, i - 1);
      assert ts[..i][0] == ts[0] && ts[..i][1..] == ts[1..][..i - 1];
    }
  }

  // --- Closing ---

  // `troves.drop(drops)` with a sample of row indices.
  function DropRows(ts: seq<Trove>, drops: set<nat>): seq<Trove> {
    if ts == [] then []
    else
      var last := |ts| - 1;
      var rest := DropRows(ts[..last], drops);
      if last in drops then rest else rest + [ts[last]]
  }

  function DroppedRows(ts: seq<Trove>, drops: set<nat>): seq<Trove> {
    if ts == [] then []
    else
      var last := |ts| - 1;
      var rest := DroppedRows(ts[..last], drops);
      if last in drops then rest + [ts[last]] else rest
  }

  // Dropping a sample of rows removes as many rows, and exactly their debt.
  lemma ClosingSplitsDebt(ts: seq<Trove>, drops: set<nat>)
    requires forall i <- drops :: i < |ts|
    ensures Total(ts) == Total(DropRows(ts, drops)) + Total(DroppedRows(ts, drops))
    ensures multiset(ts) == multiset(DropRows(ts, drops)) + multiset(DroppedRows(ts, drops))
    ensures |DroppedRows(ts, drops)| == |drops| && |DropRows(ts, drops)| == |ts| - |drops|
  {
    DroppedDebt(ts, drops);
    DroppedMembers(ts, drops);
    DroppedCount(ts, drops);
    assert DropsBelow(drops, |ts|) == drops;
    assert |multiset(ts)| == |multiset(DropRows(ts, drops))| + |multiset(DroppedRows(ts, drops))|;
  }

  lemma {:induction false} DroppedDebt(ts: seq<Trove>, drops: set<nat>)
    ensures Total(ts) == Total(DropRows(ts, drops)) + Total(DroppedRows(ts, drops))
  {
    if ts != [] {
      var last := |ts| - 1;
      DroppedDebt(ts[..last], drops);
      assert ts == ts[..last] + [ts[last]];
      TotalSnoc(ts[..last], ts[last]);
      TotalSnoc(DropRows(ts[..last], drops), ts[last]);
      TotalSnoc(DroppedRows(ts[..last], drops), ts[last]);
    }
  }

  lemma {:induction false} DroppedMembers(ts: seq<Trove>, drops: set<nat>)
    ensures multiset(ts) == multiset(DropRows(ts, drops)) + multiset(DroppedRows(ts, drops))
  {
    if ts != [] {
      var last := |ts| - 1;
      DroppedMembers(ts[..last], drops);
      assert ts == ts[..last] + [ts[last]];
    }
  }

  function DropsBelow(drops: set<nat>, n: nat): set<nat> {
    set i | i in drops && i < n
  }

  lemma {:induction false} DroppedCount(ts: seq<Trove>, drops: set<nat>)
    ensures |DroppedRows(ts, drops)| == |DropsBelow(drops, |ts|)|
  {
    if ts == [] {
      assert DropsBelow(drops, 0) == {};
    } else {
      var last := |ts| - 1;
      DroppedCount(ts[..last], drops);
      assert DropsBelow(drops, |ts|) == DropsBelow(drops, last) + if last in drops then {last} else {};
    }
  }

  // A row outside the sample is found behind the earlier ones outside it.
  lemma {:induction false} KeptRow(ts: seq<Trove>, drops: set<nat>, i: nat)
    requires i < |ts| && i !in drops
    ensures var kept, k := DropRows(ts, drops), i - |DropsBelow(drops, i)|;
            0 <= k < |kept| && kept[k] == ts[i]
  {
    var last := |ts| - 1;
    KeptCount(ts[..last], drops);
    if i < last {
      KeptRow(ts[..last], drops, i);
    }
  }

  lemma {:induction false} KeptCount(ts: seq<Trove>, drops: set<nat>)
    ensures |DropRows(ts, drops)| == |ts| - |DropsBelow(drops, |ts|)|
  {
    if ts == [] {
      assert DropsBelow(drops, 0) == {};
    } else {
      var last := |ts| - 1;
      KeptCount(ts[..last], drops);
      assert DropsBelow(drops, |ts|) == DropsBelow(drops, last) + if last in drops then {last} else {};
    }
  }

  lemma {:induction false} ClosingInventsNothing(ts: seq<Trove>, drops: set<nat>)
    ensures forall t <- DropRows(ts, drops) :: t in ts
  {
    if ts != [] {
      ClosingInventsNothing(ts[..|ts| - 1], drops);
    }
  }

  // --- Adjusting ---

  // How far the current ratio is from the owner's, in units of the owner's inattention.
  function Deviation(t: Trove): real
    requires Sound(t)
  {
    assert t.crInitial * t.inattention > 0.0 by { ProductPositive(t.crInitial, t.inattention); }
    (t.crCurrent - t.crInitial) / (t.crInitial * t.inattention)
  }

  predicate Overdue(t: Trove)
    requires Sound(t)
  {
    Deviation(t) < -1.0 || Deviation(t) > 2.0
  }

  function TargetSupply(t: Trove): real
    requires Sound(t)
  {
    t.etherPrice * t.etherQuantity / t.crInitial
  }

  predicate OnTarget(t: Trove)
    requires t.supply != 0.0
  {
    t.etherPrice * t.etherQuantity / t.supply == t.crInitial
  }

  // One row of `adjust_troves`: `p >= ratio` adjusts the debt, `p < ratio` the collateral.
  function Adjust(t: Trove, p: real, ratio: real): Trove
    requires Sound(t) && t.etherPrice > 0.0
  {
    if !Overdue(t) then t
    else if p >= ratio then t.(supply := TargetSupply(t))
    else t.(etherQuantity := t.crInitial * t.supply / t.etherPrice)
  }

  // An adjusted row sits exactly on its owner's ratio and every other row is untouched.
  // When `CR_current` is fresh, the row stays safe, and its debt rises exactly where the
  // issuance fee is due.
  lemma AdjustHitsTarget(t: Trove, p: real, ratio: real)
    requires Safe(t, t.etherPrice) && t.etherPrice > 0.0 && Fresh(t)
    ensures Safe(Adjust(t, p, ratio), t.etherPrice)
    ensures Overdue(t) ==> OnTarget(Adjust(t, p, ratio))
    ensures !Overdue(t) ==> Adjust(t, p, ratio) == t
    ensures p >= ratio ==> Adjust(t, p, ratio).etherQuantity == t.etherQuantity
    ensures p < ratio ==> Adjust(t, p, ratio).supply == t.supply
    ensures Adjust(t, p, ratio).supply > t.supply <==> p >= ratio && Deviation(t) > 2.0
    ensures Adjust(t, p, ratio).supply < t.supply <==> p >= ratio && Deviation(t) < -1.0
  {
    if Overdue(t) {
      if p >= ratio {
        DebtAdjusted(t);
      } else {
        CollateralAdjusted(t);
      }
    }
  }

  // The price, the owner's data and the recorded ratio stay as they are.
  lemma AdjustKeeps(t: Trove, p: real, ratio: real)
    requires Sound(t) && t.etherPrice > 0.0
    ensures var r := Adjust(t, p, ratio);
            && r.etherPrice == t.etherPrice && r.crInitial == t.crInitial
            && r.inattention == t.inattention && r.crCurrent == t.crCurrent
  {
  }

  // A trove is overdue when its collateral is worth less than the owner's ratio of its debt
  // by more than the inattention, or more by more than twice that.
  lemma OverdueMeans(t: Trove)
    requires Sound(t) && Fresh(t)
    ensures var value, target := t.etherPrice * t.etherQuantity, t.crInitial * t.supply;
            && (Deviation(t) < -1.0 <==> value < target * (1.0 - t.inattention))
            && (Deviation(t) > 2.0 <==> value > target * (1.0 + 2.0 * t.inattention))
  {
    var unit := t.crInitial * t.inattention;
    DeviationInUnits(t, unit);
    QuotientOrder(t.etherPrice * t.etherQuantity, t.supply, 0.0);
    ScaledBounds(t.crCurrent, t.crInitial, t.inattention, unit, t.supply,
                 t.etherPrice * t.etherQuantity, t.crInitial * t.supply);
  }

  lemma DeviationInUnits(t: Trove, unit: real)
    requires Sound(t) && unit == t.crInitial * t.inattention
    ensures Deviation(t) < -1.0 <==> t.crCurrent < t.crInitial - unit
    ensures Deviation(t) > 2.0 <==> t.crCurrent > t.crInitial + 2.0 * unit
  {
    ProductPositive(t.crInitial, t.inattention);
    QuotientOrder(t.crCurrent - t.crInitial, t.crInitial * t.inattention, 0.0);
    InUnits(Deviation(t), unit, t.crCurrent - t.crInitial);
  }

  lemma InUnits(quotient: real, unit: real, amount: real)
    requires unit > 0.0 && quotient * unit == amount
    ensures quotient < -1.0 <==> amount < -unit
    ensures quotient > 2.0 <==> amount > 2.0 * unit
  {
    ProductOrder(quotient, -1.0, unit);
    ProductOrder(2.0, quotient, unit);
  }

  lemma ScaledBounds(
    current: real, initial: real, inattention: real, unit: real, s: real, value: real, target: real)
    requires s > 0.0 && unit == initial * inattention && value == current * s && target == initial * s
    ensures current < initial - unit <==> value < target * (1.0 - inattention)
    ensures current > initial + 2.0 * unit <==> value > target * (1.0 + 2.0 * inattention)
  {
    var part := target * inattention;
    assert unit * s == part;
    ProductOrder(current, initial - unit, s);
    ProductOrder(initial + 2.0 * unit, current, s);
    assert (initial - unit) * s == target - part;
    assert (initial + 2.0 * unit) * s == target + 2.0 * part;
    assert target * (1.0 - inattention) == target - part;
    assert target * (1.0 + 2.0 * inattention) == target + 2.0 * part;
  }

  lemma DebtAdjusted(t: Trove)
    requires Safe(t, t.etherPrice) && Fresh(t) && Overdue(t)
    ensures var r := t.(supply := TargetSupply(t)); Safe(r, t.etherPrice) && OnTarget(r)
    ensures TargetSupply(t) > t.supply <==> Deviation(t) > 2.0
    ensures TargetSupply(t) < t.supply <==> Deviation(t) < -1.0
  {
    DeviationSign(t);
    DebtTarget(t.etherPrice * t.etherQuantity, t.crInitial, t.supply);
  }

  lemma CollateralAdjusted(t: Trove)
    requires Sound(t) && t.etherPrice > 0.0
    ensures var r := t.(etherQuantity := t.crInitial * t.supply / t.etherPrice);
            Safe(r, t.etherPrice) && OnTarget(r)
  {
    CollateralTarget(t.crInitial, t.supply, t.etherPrice, t.crInitial * t.supply / t.etherPrice);
  }

  // A fresh ratio below the owner's means too much debt, above it too little.
  lemma DeviationSign(t: Trove)
    requires Sound(t) && Fresh(t)
    ensures Deviation(t) < -1.0 ==> t.etherPrice * t.etherQuantity < t.crInitial * t.supply
    ensures Deviation(t) > 2.0 ==> t.etherPrice * t.etherQuantity > t.crInitial * t.supply
  {
    ProductPositive(t.crInitial, t.inattention);
    QuotientOrder(t.crCurrent - t.crInitial, t.crInitial * t.inattention, 0.0);
    QuotientOrder(t.etherPrice * t.etherQuantity, t.supply, t.crInitial);
  }

  lemma DebtTarget(value: real, cr: real, s: real)
    requires cr >= MIN_CR && s > 0.0 && value >= MIN_CR * s
    ensures var target := value / cr;
            && target > 0.0 && value / target == cr && value >= MIN_CR * target
            && (target > s <==> value > cr * s)
            && (target < s <==> value < cr * s)
  {
    var target := value / cr;
    QuotientOrder(value, cr, s);
    QuotientOrder(value, cr, 0.0);
    assert target * cr == value;
    QuotientOrder(value, target, cr);
    ProductOrder(MIN_CR, cr, target);
  }

  lemma CollateralTarget(cr: real, s: real, price: real, q: real)
    requires cr >= MIN_CR && s > 0.0 && price > 0.0 && q == cr * s / price
    ensures price * q / s == cr && price * q >= MIN_CR * s
  {
    QuotientOrder(cr * s, price, q);
    QuotientOrder(cr * s, s, cr);
    ProductOrder(MIN_CR, cr, s);
  }

  // A table of sound rows that all carry the same positive ether price.
  predicate Priced(ts: seq<Trove>, etherPrice: real) {
    etherPrice > 0.0 && forall i :: 0 <= i < |ts| ==> Sound(ts[i]) && ts[i].etherPrice == etherPrice
  }

  function AdjustAll(ts: seq<Trove>, etherPrice: real, pick: nat -> real, ratio: real): (r: seq<Trove>)
    requires Priced(ts, etherPrice)
    ensures |r| == |ts|
  {
    seq(|ts|, i requires 0 <= i < |ts| => Adjust(ts[i], pick(i), ratio))
  }

  // Debt created where `after` owes more than `before`, and destroyed where it owes less.
  function Raised(before: seq<Trove>, after: seq<Trove>): real
    requires |before| == |after|
  {
    if before == [] then 0.0
    else
      var n := |before| - 1;
      var rise := after[n].supply - before[n].supply;
      Raised(before[..n], after[..n]) + (if rise > 0.0 then rise else 0.0)
  }

  lemma {:induction false} RaisedAndLowered(before: seq<Trove>, after: seq<Trove>)
    requires |before| == |after|
    ensures Raised(before, after) >= 0.0
    ensures Total(after) - Total(before) == Raised(before, after) - Raised(after, before)
  {
    if before != [] {
      var n := |before| - 1;
      RaisedAndLowered(before[..n], after[..n]);
      assert before == before[..n] + [before[n]] && after == after[..n] + [after[n]];
      TotalSnoc(before[..n], before[n]);
      TotalSnoc(after[..n], after[n]);
    }
  }

  // --- Opening ---

  datatype Opening = Opening(crRatio: real, etherQuantity: real, inattention: real)

  // The ranges of the random draws: 1.1 plus a tenth of a chi-square, and two gammas.
  predicate InRange(d: Opening) {
    d.crRatio >= MIN_CR && d.etherQuantity > 0.0 && d.inattention > 0.0
  }

  predicate AllInRange(ds: seq<Opening>) {
    forall i :: 0 <= i < |ds| ==> InRange(ds[i])
  }

  function Open(d: Opening, etherPrice: real): Trove
    requires InRange(d)
  {
    Trove(etherPrice, d.etherQuantity, d.crRatio, etherPrice * d.etherQuantity / d.crRatio,
          d.inattention, d.crRatio)
  }

  function OpenAll(ds: seq<Opening>, etherPrice: real): (r: seq<Trove>)
    requires AllInRange(ds)
    ensures |r| == |ds|
  {
    seq(|ds|, i requires 0 <= i < |ds| => Open(ds[i], etherPrice))
  }

  lemma OpenIsSafe(d: Opening, etherPrice: real)
    requires InRange(d) && etherPrice > 0.0
    ensures Safe(Open(d, etherPrice), etherPrice)
    ensures Fresh(Open(d, etherPrice)) && OnTarget(Open(d, etherPrice))
    ensures Open(d, etherPrice).crInitial == d.crRatio && Open(d, etherPrice).etherQuantity == d.etherQuantity
    ensures Open(d, etherPrice).inattention == d.inattention
    ensures d.crRatio * Open(d, etherPrice).supply == etherPrice * d.etherQuantity
  {
    var value := etherPrice * d.etherQuantity;
    ProductPositive(etherPrice, d.etherQuantity);
    var s := value / d.crRatio;
    QuotientOrder(value, d.crRatio, 0.0);
    ProductOrder(MIN_CR, d.crRatio, s);
    QuotientOrder(value, s, d.crRatio);
  }
}
