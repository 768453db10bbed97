/**
 The off-chain stake simulation: liquidations remove stake, new collateral receives
 stake in proportion, rounded down. Compared with a run in exact arithmetic, this
 answers whether the truncation error is stable or grows.
 */
module Stakes {
  import opened Powers

  datatype Books = Books(stakes: nat, coll: nat)

  // One half of a round of the loop.
  datatype Op = Liquidate(stake: nat) | AddColl(coll: nat)

  // `offchainStake = newEntrantColl * offchainTotalStakes / offchainTotalColl`
  function NewStake(b: Books, coll: nat): nat
    requires b.coll > 0
  {
    coll * b.stakes / b.coll
  }

  // A trove holds no more stake than there is, and there is always collateral.
  predicate Allowed(b: Books, op: Op) {
    b.coll > 0 && (op.Liquidate? ==> op.stake <= b.stakes)
  }

  function Apply(b: Books, op: Op): (r: Books)
    requires Allowed(b, op)
    ensures r.coll >= b.coll
  {
    match op
    case Liquidate(stake) => Books(b.stakes - stake, b.coll)
    case AddColl(coll) => Books(b.stakes + NewStake(b, coll), b.coll + coll)
  }

  predicate AllAllowed(b: Books, ops: seq<Op>)
    decreases |ops|
  {
    b.coll > 0 && (ops == [] || (Allowed(b, ops[0]) && AllAllowed(Apply(b, ops[0]), ops[1..])))
  }

  function Run(b: Books, ops: seq<Op>): (r: Books)
    requires AllAllowed(b, ops)
    ensures r.coll >= b.coll > 0
    decreases |ops|
  {
    if ops == [] then b else Run(Apply(b, ops[0]), ops[1..])
  }

  // --- The same run in exact arithmetic ---

  function ExactApply(exact: real, b: Books, op: Op): real
    requires Allowed(b, op)
  {
    match op
    case Liquidate(stake) => exact - stake as real
    case AddColl(coll) => exact + coll as real * exact / b.coll as real
  }

  // The collateral of the exact run is that of the integer run: it is never divided.
  function ExactRun(exact: real, b: Books, ops: seq<Op>): real
    requires AllAllowed(b, ops)
    decreases |ops|
  {
    if ops == [] then exact else ExactRun(ExactApply(exact, b, ops[0]), Apply(b, ops[0]), ops[1..])
  }

  function Error(exact: real, b: Books): real {
    exact - b.stakes as real
  }

  function Per(amount: real, coll: real): real
    requires coll > 0.0
  {
    amount / coll
  }

  // Error per unit of collateral.
  function RelativeError(exact: real, b: Books): real
    requires b.coll > 0
  {
    Per(Error(exact, b), b.coll as real)
  }

  // `amount` grown as the collateral grew from `b` to `end`.
  function Grown(amount: real, b: Books, end: Books): real
    requires b.coll > 0
  {
    amount * (end.coll as real / b.coll as real)
  }

  // One over the total collateral, summed over the additions of the run.
  function InverseSum(b: Books, ops: seq<Op>): real
    requires AllAllowed(b, ops)
    decreases |ops|
  {
    if ops == [] then 0.0
    else
      var next := Apply(b, ops[0]);
      (if ops[0].AddColl? then 1.0 / next.coll as real else 0.0) + InverseSum(next, ops[1..])
  }

  function Additions(ops: seq<Op>): nat {
    if ops == [] then 0 else (if ops[0].AddColl? then 1 else 0) + Additions(ops[1..])
  }

  // No addition of the run has anything to truncate.
  predicate DividesEvenly(b: Books, ops: seq<Op>)
    requires AllAllowed(b, ops)
    decreases |ops|
  {
    ops == [] ||
    ((ops[0].AddColl? ==> ops[0].coll * b.stakes % b.coll == 0)
     && DividesEvenly(Apply(b, ops[0]), ops[1..]))
  }

  // --- One operation ---

  // How far a quotient lies above a number.
  function Excess(numerator: real, denominator: real, whole: real): real
    requires denominator > 0.0
  {
    numerator / denominator - whole
  }

  lemma Truncation(a: nat, c: nat, q: nat, numerator: real)
    requires c > 0 && q == a / c && numerator == a as real
    ensures 0.0 <= Excess(numerator, c as real, q as real) < 1.0
    ensures Excess(numerator, c as real, q as real) == 0.0 <==> a % c == 0
  {
    var r := a % c;
    assert a == q * c + r;
    ProductAsReal(q, c);
    assert numerator == q as real * c as real + r as real;
    ExcessBounds(numerator, c as real, q as real, r as real);
  }

  lemma ExcessBounds(numerator: real, c: real, q: real, r: real)
    requires c > 0.0 && numerator == q * c + r && 0.0 <= r < c
    ensures 0.0 <= Excess(numerator, c, q) < 1.0
    ensures Excess(numerator, c, q) == 0.0 <==> r == 0.0
  {
    assert (q + 1.0) * c == q * c + c;
    QuotientOrder(numerator, c, q);
    QuotientOrder(numerator, c, q + 1.0);
  }

  // What is truncated when an addition creates `stake`.
  function Lost(b: Books, coll: nat, stake: nat): real
    requires b.coll > 0
  {
    Excess(coll as real * b.stakes as real, b.coll as real, stake as real)
  }

  // An addition keeps the relative error and adds what is truncated.
  lemma AdditionError(exact: real, b: Books, coll: nat, stake: nat)
    requires b.coll > 0
    ensures RelativeError(ExactApply(exact, b, AddColl(coll)), Books(b.stakes + stake, b.coll + coll)) ==
            RelativeError(exact, b) + Per(Lost(b, coll, stake), (b.coll + coll) as real)
  {
    var C, c, s' := b.coll as real, coll as real, (b.stakes + stake) as real;
    Rescale(exact, b.stakes as real, C, c, stake as real, s', (b.coll + coll) as real);
    assert Error(ExactApply(exact, b, AddColl(coll)), Books(b.stakes + stake, b.coll + coll)) ==
           exact + c * exact / C - s';
    assert Lost(b, coll, stake) == c * b.stakes as real / C - stake as real;
  }

  // Real arithmetic of one addition of `c` to the collateral `C`.
  lemma Rescale(exact: real, s: real, C: real, c: real, stake: real, s': real, C': real)
    requires C > 0.0 && c >= 0.0 && s' == s + stake && C' == C + c
    ensures Per(exact + c * exact / C - s', C') == Per(exact - s, C) + Per(c * s / C - stake, C')
  {
    var x := (exact - s) / C;
    assert x * C == exact - s;
    assert c * exact / C == c * s / C + c * x by {
      assert c * exact == c * s + (c * x) * C;
    }
    var lost := c * s / C - stake;
    assert exact + c * exact / C - s' == x * C' + lost;
    assert (x * C' + lost) / C' == x + lost / C';
  }

  lemma LostBounds(b: Books, coll: nat)
    requires b.coll > 0
    ensures 0.0 <= Lost(b, coll, NewStake(b, coll)) < 1.0
    ensures Lost(b, coll, NewStake(b, coll)) == 0.0 <==> coll * b.stakes % b.coll == 0
  {
    var stake, numerator := NewStake(b, coll), coll as real * b.stakes as real;
    ProductAsReal(coll, b.stakes);
    Truncation(coll * b.stakes, b.coll, stake, numerator);
    assert Lost(b, coll, stake) == Excess(numerator, b.coll as real, stake as real);
  }

  lemma ProductAsReal(x: nat, y: nat)
    ensures (x * y) as real == x as real * y as real
  {
  }

  lemma StepError(exact: real, b: Books, op: Op)
    requires Allowed(b, op)
    ensures var before := RelativeError(exact, b);
            var after := RelativeError(ExactApply(exact, b, op), Apply(b, op));
            match op
            case Liquidate(_) => after == before
            case AddColl(coll) =>
              && before <= after < before + 1.0 / Apply(b, op).coll as real
              && (after == before <==> coll * b.stakes % b.coll == 0)
  {
    if op.AddColl? {
      var stake := NewStake(b, op.coll);
      AdditionError(exact, b, op.coll, stake);
      LostBounds(b, op.coll);
      var next := (b.coll + op.coll) as real;
      QuotientOrder(Lost(b, op.coll, stake), next, 0.0);
      QuotientOrder(Lost(b, op.coll, stake), next, 1.0 / next);
    }
  }

  // --- Main results ---

  // The error per unit of collateral never falls, and over a run it rises by less than the
  // sum of the inverse collaterals. It stands still exactly when nothing was truncated.
  lemma {:induction false} ErrorGrowth(exact: real, b: Books, ops: seq<Op>)
    requires AllAllowed(b, ops)
    ensures var before := RelativeError(exact, b);
            var after := RelativeError(ExactRun(exact, b, ops), Run(b, ops));
            && before <= after <= before + InverseSum(b, ops)
            && (Additions(ops) > 0 ==> after < before + InverseSum(b, ops))
            && (after == before <==> DividesEvenly(b, ops))
    decreases |ops|
  {
    if ops != [] {
      StepError(exact, b, ops[0]);
      ErrorGrowth(ExactApply(exact, b, ops[0]), Apply(b, ops[0]), ops[1..]);
    }
  }

  lemma {:induction false} InverseSumBound(b: Books, ops: seq<Op>)
    requires AllAllowed(b, ops)
    ensures InverseSum(b, ops) <= Additions(ops) as real / b.coll as real
    decreases |ops|
  {
    if ops != [] {
      var next := Apply(b, ops[0]);
      InverseSumBound(next, ops[1..]);
      OneMoreTerm(InverseSum(next, ops[1..]), Additions(ops[1..]) as real, b.coll as real, next.coll as real);
    }
  }

  lemma OneMoreTerm(sum: real, n: real, c: real, c': real)
    requires n >= 0.0 && 0.0 < c <= c' && sum <= n / c'
    ensures sum <= n / c && 1.0 / c' + sum <= (n + 1.0) / c
  {
    LargerDenominator(n, c, c');
    LargerDenominator(1.0, c, c');
    assert (n + 1.0) / c == n / c + 1.0 / c;
  }

  lemma LargerDenominator(n: real, c: real, c': real)
    requires n >= 0.0 && 0.0 < c <= c'
    ensures n / c' <= n / c
  {
    var q := n / c;
    QuotientOrder(n, c, 0.0);
    QuotientOrder(n, c', q);
    if c < c' && q > 0.0 {
      ProductOrder(c, c', q);
    }
  }

  // The absolute error against the error per unit of collateral.
  lemma ErrorScale(exact: real, end: Books, n: real, b: Books)
    requires b.coll > 0 && end.coll > 0
    ensures RelativeError(exact, end) < n / b.coll as real <==> Error(exact, end) < Grown(n, b, end)
    ensures Error(exact, end) < 0.0 <==> RelativeError(exact, end) < 0.0
    ensures Error(exact, end) == 0.0 <==> RelativeError(exact, end) == 0.0
  {
    var c, c' := b.coll as real, end.coll as real;
    QuotientOrder(Error(exact, end), c', n / c);
    QuotientOrder(Error(exact, end), c', 0.0);
    assert (n / c) * c' == n * (c' / c);
  }

  // From exact books, the integer total is never above the exact one and equals it exactly
  // when every division came out even. After n additions the error per unit of collateral
  // is below the sum of the inverse collaterals, and the error itself below n times the
  // growth of the collateral.
  lemma TruncationErrorBound(b: Books, ops: seq<Op>)
    requires AllAllowed(b, ops)
    ensures var exact, end := ExactRun(b.stakes as real, b, ops), Run(b, ops);
            && Error(exact, end) >= 0.0
            && (Error(exact, end) == 0.0 <==> DividesEvenly(b, ops))
            && (Additions(ops) > 0 ==>
                  && RelativeError(exact, end) < InverseSum(b, ops)
                  && Error(exact, end) < Grown(Additions(ops) as real, b, end))
  {
    var exact, end := ExactRun(b.stakes as real, b, ops), Run(b, ops);
    NoErrorAtStart(b);
    ErrorGrowth(b.stakes as real, b, ops);
    InverseSumBound(b, ops);
    ErrorScale(exact, end, Additions(ops) as real, b);
  }

  lemma NoErrorAtStart(b: Books)
    requires b.coll > 0
    ensures RelativeError(b.stakes as real, b) == 0.0
  {
  }

  // Once there is an error it never shrinks: it grows at least as the collateral does.
  lemma ErrorNeverRecovers(exact: real, b: Books, ops: seq<Op>)
    requires AllAllowed(b, ops)
    ensures Error(ExactRun(exact, b, ops), Run(b, ops)) >= Grown(Error(exact, b), b, Run(b, ops))
  {
    ErrorGrowth(exact, b, ops);
    ErrorScale(ExactRun(exact, b, ops), Run(b, ops), Error(exact, b), b);
  }

  // The ratio of stakes to collateral is no higher in `b'` than in `b`.
  predicate RatioAtMost(b': Books, b: Books) {
    b'.stakes * b.coll <= b.stakes * b'.coll
  }

  lemma StepRatio(b: Books, op: Op)
    requires Allowed(b, op)
    ensures RatioAtMost(Apply(b, op), b)
  {
    match op {
      case Liquidate(stake) =>
        assert (b.stakes - stake) * b.coll == b.stakes * b.coll - stake * b.coll;
      case AddColl(coll) =>
        var stake := NewStake(b, coll);
        assert stake * b.coll <= coll * b.stakes;
        assert (b.stakes + stake) * b.coll == b.stakes * b.coll + stake * b.coll;
        assert b.stakes * (b.coll + coll) == b.stakes * b.coll + coll * b.stakes;
    }
  }

  lemma Cancel(x: int, y: int, k: nat)
    requires k > 0 && x * k <= y * k
    ensures x <= y
  {
    assert (y - x) * k >= 0;
  }

  lemma RatioTransitive(b: Books, b': Books, b'': Books)
    requires b.coll > 0 && b'.coll > 0 && RatioAtMost(b', b) && RatioAtMost(b'', b')
    ensures RatioAtMost(b'', b)
  {
    ChainProducts(b.stakes, b.coll, b'.stakes, b'.coll, b''.stakes, b''.coll);
  }

  lemma ChainProducts(s: nat, c: nat, s': nat, c': nat, s'': nat, c'': nat)
    requires c' > 0 && s' * c <= s * c' && s'' * c' <= s' * c''
    ensures s'' * c <= s * c''
  {
    calc {
      (s'' * c) * c';
      (s'' * c') * c;
    <=
      (s' * c'') * c;
      (s' * c) * c'';
    <=
      (s * c') * c'';
      (s * c'') * c';
    }
    Cancel(s'' * c, s * c'', c');
  }

  // The ratio of stakes to collateral never rises.
  lemma {:induction false} RatioNeverRises(b: Books, ops: seq<Op>)
    requires AllAllowed(b, ops)
    ensures RatioAtMost(Run(b, ops), b)
    decreases |ops|
  {
    if ops != [] {
      StepRatio(b, ops[0]);
      RatioNeverRises(Apply(b, ops[0]), ops[1..]);
      RatioTransitive(b, Apply(b, ops[0]), Run(b, ops));
    }
  }

  lemma StakeWithinCollateral(b: Books, coll: nat)
    requires b.coll > 0 && b.stakes <= b.coll
    ensures NewStake(b, coll) <= coll
  {
    assert coll * b.stakes <= coll * b.coll;
    assert NewStake(b, coll) * b.coll <= coll * b.stakes;
    Cancel(NewStake(b, coll), coll, b.coll);
  }

  // Hence, starting from no more stake than collateral, every stake ever created is at
  // most the collateral it was created for.
  lemma StakeNeverExceedsCollateral(b: Books, ops: seq<Op>, coll: nat)
    requires AllAllowed(b, ops) && b.stakes <= b.coll
    ensures Run(b, ops).stakes <= Run(b, ops).coll
    ensures NewStake(Run(b, ops), coll) <= coll
  {
    var end := Run(b, ops);
    RatioNeverRises(b, ops);
    StakesWithin(b, end);
    StakeWithinCollateral(end, coll);
  }

  lemma StakesWithin(b: Books, end: Books)
    requires b.coll > 0 && b.stakes <= b.coll && RatioAtMost(end, b)
    ensures end.stakes <= end.coll
  {
    assert b.stakes * end.coll <= b.coll * end.coll;
    Cancel(end.stakes, end.coll, b.coll);
  }

  // --- The loop ---

  datatype Round = Round(liquidated: nat, added: nat)

  function Ops(rounds: seq<Round>): seq<Op> {
    if rounds == [] then [] else [Liquidate(rounds[0].liquidated), AddColl(rounds[0].added)] + Ops(rounds[1..])
  }

  lemma RoundAllowed(b: Books, rounds: seq<Round>)
    requires rounds != [] && AllAllowed(b, Ops(rounds))
    ensures Allowed(b, Liquidate(rounds[0].liquidated))
    ensures var left := Apply(b, Liquidate(rounds[0].liquidated));
            && Allowed(left, AddColl(rounds[0].added))
            && AllAllowed(Apply(left, AddColl(rounds[0].added)), Ops(rounds[1..]))
            && Run(b, Ops(rounds)) == Run(Apply(left, AddColl(rounds[0].added)), Ops(rounds[1..]))
  {
    var ops := Ops(rounds);
    assert ops[1..][0] == ops[1] && ops[1..][1..] == Ops(rounds[1..]);
  }

  // The stake the last round creates; `last` when there is no round.
  function LastStake(b: Books, rounds: seq<Round>, last: nat): nat
    requires AllAllowed(b, Ops(rounds))
    decreases |rounds|
  {
    if rounds == [] then last
    else
      RoundAllowed(b, rounds);
      var left := Apply(b, Liquidate(rounds[0].liquidated));
      LastStake(Apply(left, AddColl(rounds[0].added)), rounds[1..], NewStake(left, rounds[0].added))
  }

  lemma RoundJoined(b: Books, rounds: seq<Round>)
    requires rounds != [] && Allowed(b, Liquidate(rounds[0].liquidated))
    requires var left := Apply(b, Liquidate(rounds[0].liquidated));
             AllAllowed(Apply(left, AddColl(rounds[0].added)), Ops(rounds[1..]))
    ensures AllAllowed(b, Ops(rounds))
  {
    var ops := Ops(rounds);
    assert ops[1..][0] == ops[1] && ops[1..][1..] == Ops(rounds[1..]);
  }

  // The state before the last of the rounds.
  ghost function BeforeLast(b: Books, rounds: seq<Round>): Books
    requires rounds != [] && AllAllowed(b, Ops(rounds))
    decreases |rounds|
  {
    RoundAllowed(b, rounds);
    var left := Apply(b, Liquidate(rounds[0].liquidated));
    if |rounds| == 1 then b else BeforeLast(Apply(left, AddColl(rounds[0].added)), rounds[1..])
  }

  lemma {:induction false} BeforeLastIsRun(b: Books, rounds: seq<Round>)
    requires rounds != [] && AllAllowed(b, Ops(rounds))
    ensures var earlier := rounds[..|rounds| - 1];
            AllAllowed(b, Ops(earlier)) && BeforeLast(b, rounds) == Run(b, Ops(earlier))
    decreases |rounds|
  {
    var earlier := rounds[..|rounds| - 1];
    RoundAllowed(b, rounds);
    if |rounds| > 1 {
      var left := Apply(b, Liquidate(rounds[0].liquidated));
      BeforeLastIsRun(Apply(left, AddColl(rounds[0].added)), rounds[1..]);
      assert earlier[1..] == rounds[1..][..|rounds| - 2];
      RoundJoined(b, earlier);
      RoundAllowed(b, earlier);
    } else {
      assert earlier == [];
    }
  }

  // A round that ends with these totals reports this stake: what it adds to the stakes
  // after the liquidation, and their share for the collateral added, rounded down.
  predicate Reports(before: Books, round: Round, end: Books, stake: nat) {
    && round.liquidated <= before.stakes
    && end.stakes == before.stakes - round.liquidated + stake
    && end.coll == before.coll + round.added
    && stake * before.coll <= round.added * (before.stakes - round.liquidated) < (stake + 1) * before.coll
  }

  lemma Share(b: Books, coll: nat)
    requires b.coll > 0
    ensures NewStake(b, coll) * b.coll <= coll * b.stakes < (NewStake(b, coll) + 1) * b.coll
  {
    var a, c := coll * b.stakes, b.coll;
    assert a == (a / c) * c + a % c;
    assert (a / c + 1) * c == (a / c) * c + c;
  }

  // What the last stake is, in terms of the totals before and after the last round.
  lemma {:induction false} LastStakeIs(b: Books, rounds: seq<Round>, last: nat)
    requires rounds != [] && AllAllowed(b, Ops(rounds))
    ensures Reports(BeforeLast(b, rounds), rounds[|rounds| - 1], Run(b, Ops(rounds)), LastStake(b, rounds, last))
    decreases |rounds|
  {
    RoundAllowed(b, rounds);
    var left := Apply(b, Liquidate(rounds[0].liquidated));
    var stake := NewStake(left, rounds[0].added);
    var next := Apply(left, AddColl(rounds[0].added));
    if |rounds| > 1 {
      LastStakeIs(next, rounds[1..], stake);
    } else {
      Share(left, rounds[0].added);
      assert Run(b, Ops(rounds)) == next && LastStake(b, rounds, last) == stake by {
        assert rounds[1..] == [];
      }
    }
  }

  // The `liquidate -> addColl` loop of the scripts.
  method Simulate(totalStakes: nat, totalColl: nat, rounds: seq<Round>) returns (stakes: nat, coll: nat, stake: nat)
    requires AllAllowed(Books(totalStakes, totalColl), Ops(rounds))
    ensures stakes == Run(Books(totalStakes, totalColl), Ops(rounds)).stakes
    ensures coll == Run(Books(totalStakes, totalColl), Ops(rounds)).coll
    ensures stake == LastStake(Books(totalStakes, totalColl), rounds, 0)
    ensures rounds != [] ==>
              var earlier := rounds[..|rounds| - 1];
              && AllAllowed(Books(totalStakes, totalColl), Ops(earlier))
              && Reports(Run(Books(totalStakes, totalColl), Ops(earlier)), rounds[|rounds| - 1],
                         Books(stakes, coll), stake)
  {
    ghost var start := Books(totalStakes, totalColl);
    stakes, coll, stake := totalStakes, totalColl, 0;
    assert rounds[0..] == rounds;
    for i := 0 to |rounds|
      invariant AllAllowed(Books(stakes, coll), Ops(rounds[i..]))
      invariant Run(start, Ops(rounds)) == Run(Books(stakes, coll), Ops(rounds[i..]))
      invariant LastStake(start, rounds, 0) == LastStake(Books(stakes, coll), rounds[i..], stake)
    {
      RoundAllowed(Books(stakes, coll), rounds[i..]);
      assert rounds[i..][1..] == rounds[i + 1..];
      stakes := stakes - rounds[i].liquidated;
      stake := rounds[i].added * stakes / coll;
      stakes := stakes + stake;
      coll := coll + rounds[i].added;
    }
    if rounds != [] {
      BeforeLastIsRun(start, rounds);
      LastStakeIs(start, rounds, 0);
    }
  }

  // The last stake the loop reports is at most the last collateral added.
  lemma {:induction false} LastStakeWithinCollateral(b: Books, rounds: seq<Round>, last: nat)
    requires AllAllowed(b, Ops(rounds)) && b.stakes <= b.coll && rounds != []
    ensures LastStake(b, rounds, last) <= rounds[|rounds| - 1].added
    decreases |rounds|
  {
    RoundAllowed(b, rounds);
    var left := Apply(b, Liquidate(rounds[0].liquidated));
    var next := Apply(left, AddColl(rounds[0].added));
    StakeWithinCollateral(left, rounds[0].added);
    if |rounds| > 1 {
      LastStakeWithinCollateral(next, rounds[1..], NewStake(left, rounds[0].added));
    }
  }
}
