# Models of the numeric and stateful code around the ARTH loans contracts

The repository's contracts come with JavaScript, TypeScript and Python code that computes
things itself: an economic simulation of the trove system, an off-chain replay of the stake
arithmetic, a token-market recurrence, a restartable deployer, a decimal converter and a gas
histogram. This project models that code in Dafny and proves what it keeps over every input
and every run.

| file | what it models |
|---|---|
| `Powers.dfy` | facts about real products, quotients and powers |
| `Troves.dfy` | the trove table: marking to market, liquidating, closing, adjusting, opening |
| `Redemption.dfy` | the redemption loop, cheapest ratio first, with a partial last trove |
| `PriceStabilizer.dfy` | the price law, ceiling minting and floor redemption |
| `Economy.dfy` | one period and whole runs, with fixed rates or the base-rate policy |
| `BaseRateLimit.dfy` | how high the policy's base rate can get, and that it gets that high |
| `Stakes.dfy` | truncated stake arithmetic against an exact run |
| `TokenMarket.dfy` | the token-market recurrence and its script |
| `DeploymentNames.dfy`, `Deployer.dfy` | the names contracts are recorded under, and the deployer with a crash possible at every await |
| `Decimals.dfy` | decimal strings to scaled integers and back |
| `GasHistogram.dfy` | retries, bins and the trimmed report |

`dafny verify dfyconfig.toml` verifies everything.

How the source's form is kept: the loops and updated tables are methods and classes
(`RedeemCheapest`, `RunStabilizer`, `Simulation`, `Simulate`, `Data`, `DeploymentHelper`,
`RetryUpTo`, `Histogram`), each tied by its postconditions to functions of its inputs or old
state; the lemmas are about those functions.

Reading notes:

- Floats are `real`. A market price is finite, infinite (a zero liquidity pool) or not a
  number (a negative one), as the power with a negative exponent gives.
- `x ** (1/delta)` and `sort_values` are parameters (`Library`). `Faithful` says what they
  are taken to do: the first is the positive real whose power -20 is `x`, the second
  returns its rows in ascending order of `CR_current`, in any order among equals.
- Random draws are inputs with the ranges of their distributions; the number of troves
  closed, the sample of rows drawn for it and the number of troves opened are arbitrary.
- `Network`, `World` and `Session` stand for what the code meets outside: the receipt of the
  k-th send, or none where it throws, the block explorer and the owners of contracts at a point in time, and the
  number of awaits a process survives.
- The deployer writes its sixteen `loadOrDeploy` calls out; here they are the rows of `Plan`, in
  the same order, and constructor arguments are looked up when a contract is deployed.

Where the code does not do what it says, the model follows the code:

- Sampling more troves to close than liquidation has left raises an error, and the simulation
  ends there (`StepIsSafe`, `RunIsSafe`; `HalvedPriceCrashes` is such a first period).
- A capped redemption quotes the price of the pool before it (`PriceLawAtNewSupply`,
  `BelowFloorIffCapped`; `CappedIsReached` is one), and after any redemption the recorded
  liquidity pool is too large by what was redeemed, which the next period takes its market
  from (`LiquidityIsCurrentIff`, `MarketAfterRedemption`).
- Redemption is meant to close the riskiest troves, but sorts by a ratio that adjusting leaves
  stale. A call closes the riskiest if and only if no trove that its planned amount pays for was
  adjusted past one that it does not (`ClosesRiskiestIff`, `StabilizerClosesRiskiestIff`,
  `PeriodClosesRiskiestIff`); in `StabilizerClosesRepaid` one closes a trove at 200% before one
  at 150%.
- Above a base rate of 1 the price floor is gone and nothing is redeemed at all, which keeps the
  base rate below 25 times the redeemed share where that exceeds 1 (`BaseRateBelowReach`,
  `BaseRateReachIsTight`).
- The price ceiling of the token market is meant to keep the market value of the supply; a
  step does so only when nothing or the whole demand is redeemed (`CeilingKeepsValueIff`;
  `CeilingLosesValue` is the second step of a run that does not), and the market clears only
  when the clearing price is not clamped or momentum does not push issuance up
  (`MarketClearsIff`; `MarketDoesNotClear` is a first step in which it does not).
- The token market can divide by zero (`CollapseIff`; `ScriptDividesByZero` gives the run).
- Retries are counted only when the last send of a call gets a receipt: one that runs out of gas
  and whose retry throws is lost (`NoneLostIff`, `RetryWithoutReceipt`).
- `makeDecimal` with zero digits repeats the number after the point, because `slice(-0)` is
  the whole string (`MakeDecimalDenotes`, `PrintThenParse`).
- A deployment over an empty collateral list does not even record the shared contracts
  (`CompletedRunRecords`).
- The report of an empty histogram is one row with a negative start (`ReportIsLossless`).

## Model

| member | source | states |
|---|---|---|
| Troves.LiquidationKeepsExactlySafe | packages/contracts/macroModel/macro_model.py:125-136 | after marking to market, the kept troves are exactly those whose collateral is worth 110% of their debt, and the debt of the table is split between kept and liquidated ones |
| Troves.MarkKeeps | packages/contracts/macroModel/macro_model.py:126 | marking to market sets the price and refreshes the ratio of a row, and keeps its debt, its collateral and its owner's ratio and inattention |
| Troves.SurvivorRow | packages/contracts/macroModel/macro_model.py:133-136 | a trove worth 110% of its debt stands among the survivors behind as many as there are such troves before it |
| Troves.KeptRow | packages/contracts/macroModel/macro_model.py:170-172 | a row outside the sample stands behind the earlier rows outside it |
| Troves.ClosingSplitsDebt | packages/contracts/macroModel/macro_model.py:169-172 | dropping a sample of rows leaves as many fewer, splits the table between dropped and kept rows, and removes exactly the debt of the dropped ones |
| Troves.AdjustHitsTarget | packages/contracts/macroModel/macro_model.py:184-202 | with a fresh ratio, an overdue trove ends exactly on its owner's ratio and any other is untouched; one side only changes; the trove stays safe; the debt rises exactly for debt-adjusted troves deviating above 2 and falls exactly for those below -1 |
| Troves.OverdueMeans | packages/contracts/macroModel/macro_model.py:188 | with a fresh ratio, a trove is overdue exactly when its collateral is worth less than the owner's ratio of its debt by more than the inattention, or more by more than twice that |
| Troves.OpenIsSafe | packages/contracts/macroModel/macro_model.py:225-240 | an opened trove is safe and exactly at its drawn ratio, with the collateral and inattention drawn |
| Redemption.RedeemCheapest | packages/contracts/macroModel/macro_model.py:318-334 | the loop with its running sum, residual and index error equals the specification: the largest affordable prefix goes and the rest comes from the next row |
| Redemption.FitCountIsLargest | packages/contracts/macroModel/macro_model.py:320-326 | the number of closed troves is the largest whose cheapest-first prefix the pool pays for |
| Redemption.RunsOffIff | packages/contracts/macroModel/macro_model.py:322-324 | the loop runs off the table if and only if the pool is at least the whole supply |
| Redemption.RedemptionConserves | packages/contracts/macroModel/macro_model.py:328-334 | supply after redemption is supply before minus the pool, exactly |
| Redemption.PartialRedemptionRatio | packages/contracts/macroModel/macro_model.py:329-334 | the partially redeemed trove keeps positive debt and a fresh ratio, which does not fall if and only if its collateral covers its debt or nothing is taken |
| Redemption.RedeemPaysOut | packages/contracts/macroModel/macro_model.py:328-334 | of the result of a redemption: the first row left loses what the pool leaves after the closed rows and pays out ether of just that worth, its ratio is refreshed, its owner's data and all later rows stay |
| Redemption.TablePaysOut | packages/contracts/macroModel/macro_model.py:318-334 | then the ether that leaves the table is that of the closed rows, and worth as much as the rest of the pool |
| Redemption.RedemptionKeepsSafe | packages/contracts/macroModel/macro_model.py:318-334 | redeeming less than the supply from a safe table succeeds and leaves a safe table |
| PriceStabilizer.RunStabilizer | packages/contracts/macroModel/macro_model.py:261-341 | the stabiliser with the redemption loop in place equals its specification |
| PriceStabilizer.MarketPriceLaw | packages/contracts/macroModel/macro_model.py:273 | the market price is positive and satisfies price^20 * pool = previous^20 * market |
| PriceStabilizer.LawIsDecreasing | packages/contracts/macroModel/macro_model.py:273 | two pools under one law compare opposite to their prices, so price and pool determine each other |
| PriceStabilizer.CeilingOutcome | packages/contracts/macroModel/macro_model.py:281-297 | the ceiling branch mints a positive supply, safely, and the price law at the new supply gives exactly 1.1 plus the issuance rate |
| PriceStabilizer.CeilingTroveIsSafe | packages/contracts/macroModel/macro_model.py:286-293 | the minted trove is collateralised at exactly 110% |
| PriceStabilizer.FloorGapPositive | packages/contracts/macroModel/macro_model.py:301-308 | the floor branch always sees a positive supply difference |
| PriceStabilizer.FloorOutcome | packages/contracts/macroModel/macro_model.py:301-337 | the planned redemption fits in the supply, exactly that amount leaves circulation, the table stays safe, and the recorded pool is the one before redemption |
| PriceStabilizer.StabilizerIsSafe | packages/contracts/macroModel/macro_model.py:261-341 | every call completes with a positive price of at most the ceiling, a safe table, positive supply and liquidity, and a redemption within its share of the supply |
| PriceStabilizer.BelowFloorIffCapped | packages/contracts/macroModel/macro_model.py:309-316 | the returned price is below the floor if and only if the redemption was capped |
| PriceStabilizer.PriceLawAtNewSupply | packages/contracts/macroModel/macro_model.py:276-316 | the returned price is the price law's at the new supply if and only if no positive capped redemption took place |
| PriceStabilizer.StabilizerConserves | packages/contracts/macroModel/macro_model.py:281-334 | supply changes exactly by what is minted and what is redeemed |
| PriceStabilizer.StabilizerCharges | packages/contracts/macroModel/macro_model.py:281-337 | the price ends positive, at most at 1.1 plus the issuance rate, and there exactly when it starts there or above; something is minted exactly above it; both fees are the rates of what is minted and redeemed |
| PriceStabilizer.StabilizerReshapes | packages/contracts/macroModel/macro_model.py:281-334 | above the ceiling one trove is appended, at 110%, fresh and with inattention 0.1; below 1 minus the redemption rate the cheapest troves pay out; otherwise the table stays as it is |
| PriceStabilizer.RedemptionPaysOut | packages/contracts/macroModel/macro_model.py:318-334 | the ether a call pays out of its table is all that of the closed troves, and worth as much as the debt taken from the next one |
| PriceStabilizer.LiquidityIsCurrentIff | packages/contracts/macroModel/macro_model.py:276-337 | over every call the recorded liquidity pool exceeds the real one by what was redeemed, so it is right if and only if the price did not start below the floor or nothing may be redeemed |
| PriceStabilizer.CappedIsReached | packages/contracts/macroModel/macro_model.py:309-316 | a one-trove table whose redemption is capped and leaves the price below the floor |
| PriceStabilizer.RedemptionFollowsRecord | packages/contracts/macroModel/macro_model.py:318-334 | the closed rows and the others make up the table, every closed one has a recorded ratio no higher than every other, and all but the first of the others are untouched, for any order among equal ratios |
| PriceStabilizer.ClosesRiskiestIff | packages/contracts/macroModel/macro_model.py:318-326 | where exactly the overdue rows have a stale ratio, an amount closes the troves of lowest actual ratio if and only if none of the rows it pays for was adjusted past one that it does not |
| PriceStabilizer.AlwaysClosesRiskiestIff | packages/contracts/macroModel/macro_model.py:318-326 | every amount does so if and only if no overdue row was adjusted past any other |
| PriceStabilizer.StabilizerClosesRiskiestIff | packages/contracts/macroModel/macro_model.py:301-334 | a call redeems what was planned before it and closes as many rows as that pays for; these are the riskiest if and only if none of them was adjusted past another one |
| PriceStabilizer.FreshTableClosesRiskiest | packages/contracts/macroModel/macro_model.py:318-326 | with every recorded ratio fresh, the closed troves are the riskiest |
| PriceStabilizer.DebtorRepays | packages/contracts/macroModel/macro_model.py:184-202 | adjusting takes one safe trove from 125% to 200% and leaves another at 150%, without refreshing the first one's recorded ratio |
| PriceStabilizer.RepaidGoesFirst | packages/contracts/macroModel/macro_model.py:318-326 | of these two, any amount that pays for the one at 200% closes it and keeps the one at 150% |
| PriceStabilizer.StabilizerClosesRepaid | packages/contracts/macroModel/macro_model.py:301-334 | a call of the stabiliser on these two that redeems 1.6 of the supply of 2 and does so |
| Economy.AdjustFeesAreForIncreases | packages/contracts/macroModel/macro_model.py:180-203 | the adjustment fee is the rate times the debt created, whatever was destroyed |
| Economy.IssuanceFeeIsForNewDebt | packages/contracts/macroModel/macro_model.py:440-441 | the issuance fee of a period is price times rate times all debt created by adjusting, opening and minting |
| Economy.StepConservesSupply | packages/contracts/macroModel/macro_model.py:383-443 | the supply of a period changes only by liquidated, closed, adjusted, opened, minted and redeemed debt |
| Economy.PeriodKeepsTrove | packages/contracts/macroModel/macro_model.py:180-203 | a trove that is neither liquidated nor closed is found in its place after adjusting, with its owner's ratio and inattention; it is left alone while its collateral is within the inattention of that ratio, and otherwise its debt or its collateral is put right, by the draw for its place |
| Economy.PeriodOpensTroves | packages/contracts/macroModel/macro_model.py:222-240 | behind these, whose number is that of the safe troves less the closed ones, stands one trove per draw, as drawn |
| Economy.PeriodIsRecorded | packages/contracts/macroModel/macro_model.py:433-456 | the row of a period has its ether price, stability pool and supply, a positive price of at most 1.1 plus its rate, a redemption fee of that rate, and as its rate the base rate written out, or 0.01 |
| Economy.PeriodPriceLaw | packages/contracts/macroModel/macro_model.py:270-276 | the recorded price is the price law's, from the last row's price and pool to the supply left, if and only if no positive capped redemption took place, and below the floor if and only if one was capped |
| Economy.PriceIsCapped | packages/contracts/macroModel/macro_model.py:383-456 | over every run from the start the price stays positive and at most 1.1 plus the rate of its period |
| Economy.StepIsSafe | packages/contracts/macroModel/macro_model.py:383-456 | a period crashes if and only if it closes more troves than have collateral worth 110% of their debt; otherwise it stops exactly when the stability pool exceeds the supply, so the exit on a negative price is never taken; every trove it leaves is safe, and when it runs to its end the market is live |
| Economy.PeriodEndsEarly | packages/contracts/macroModel/macro_model.py:383-456 | a period that crashes leaves the liquidated table and one that stops the table after opening, and neither leaves a row |
| Economy.HalvedPriceCrashes | packages/contracts/macroModel/macro_model.py:169-170 | ten troves at 150%, the ether price halved and one trove to close crash the first period |
| Economy.PeriodClosesRiskiestIff | packages/contracts/macroModel/macro_model.py:402-429 | every period records the redemption planned for its table, and that closes the riskiest troves if and only if none of the troves it pays for was adjusted past one that it does not |
| Economy.MarketAfterRedemption | packages/contracts/macroModel/macro_model.py:270-276 | the recorded pool of a period is too large by what it redeemed, and the next period starts from the right market if and only if that is nothing |
| Economy.InitialStateIsSafe | packages/contracts/macroModel/macro_model.py:366-380 | the state after the first openings has all the guarantees of later ones |
| Economy.InitialAccounts | packages/contracts/macroModel/macro_model.py:366-380 | the first row has price 1, the supply split evenly between the pools, a fee of a hundredth of it, and one trove per draw in their order |
| Economy.RunIsSafe | packages/contracts/macroModel/macro_model.py:383-456 | every run completes in a safe state or ends in the period named, all earlier ones having run to their end; it crashes there if and only if that period closes more troves than it has safe ones, and every trove left is collateralised at 110% at that period's ether price |
| Economy.BaseRateIsBounded | packages/contracts/macroModel/macro_model.py:663-673 | with redemption shares up to q < 1, the base rate of every run from a bounded state stays in [0, 25 q / (1 - q)] |
| Economy.BaseRateFromStart | packages/contracts/macroModel/macro_model.py:647-673 | the same for every run of the simulation from its start |
| Economy.BaseRateClosedForm | packages/contracts/macroModel/macro_model.py:671 | after any run of n periods the base rate is 0.98^n times the first one plus half of every share redeemed on the way, each decayed by 2% a period since |
| Economy.BaseRateMoves | packages/contracts/macroModel/macro_model.py:671 | the base rate rises exactly while it is below 25 times the share redeemed last period, and rests exactly there |
| BaseRateLimit.BaseRateBelowReach | packages/contracts/macroModel/macro_model.py:663-673 | from the start, with redemption ratios up to q and shares up to Q = q / (1 - q), every base rate is below 24.5 min(Q, 0.04) + 0.5 Q, which is 25 Q if and only if 25 Q is at most 1, and less otherwise |
| BaseRateLimit.RedeemsBelowOne | packages/contracts/macroModel/macro_model.py:300-301 | a period redeems something only at a base rate below 1 |
| BaseRateLimit.ShareStep | packages/contracts/macroModel/macro_model.py:301-316 | from every state with a rate below 1 some period redeems exactly its full share |
| BaseRateLimit.BaseRateReachIsTight | packages/contracts/macroModel/macro_model.py:663-673 | for every n some run from the start comes within 24.5 min(Q, 0.04) 0.98^n of that limit, so no lower one holds |
| Economy.BaseRateDecaysIff | packages/contracts/macroModel/macro_model.py:671 | the base rate after n periods is at least 0.98^n times what it was, and exactly that if and only if none of the periods it looks back to redeemed |
| Economy.Simulation.constructor | packages/contracts/macroModel/macro_model.py:647-660 | the simulation starts in the initial state with one row |
| Economy.Simulation.AdjustTroves | packages/contracts/macroModel/macro_model.py:180-203 | the in-place loop rewrites every row as specified and returns the summed fee |
| Economy.Simulation.OpenTroves | packages/contracts/macroModel/macro_model.py:222-242 | the loop appends one row per draw and returns the summed fee |
| Economy.Simulation.Step | packages/contracts/macroModel/macro_model.py:663-741 | one pass of the loop body reaches the specified outcome, a crash included, and appends a row exactly when it runs to its end |
| Economy.Simulation.Simulate | packages/contracts/macroModel/macro_model.py:663-741 | the loop reaches the outcome of the specified run, a crash included, and appends one row per period that runs to its end |
| Stakes.ErrorGrowth | packages/contracts/errorAccumulationTest/errorAccumulationTest.js:971-978 | the error per unit of collateral never falls, rises by less than the sum of the inverse collaterals, and stands still if and only if every division is even |
| Stakes.TruncationErrorBound | packages/contracts/errorAccumulationTest/errorAccumulationTest.js:966-978 | the integer total is never above the exact one, equals it if and only if every division is even, and after n additions is behind by less than n times the growth of the collateral |
| Stakes.ErrorNeverRecovers | packages/contracts/errorAccumulationTest/errorAccumulationTest.js:1172-1181 | an error once made grows at least as the collateral does: it is not stable |
| Stakes.RatioNeverRises | packages/contracts/errorAccumulationTest/errorAccumulationTest.js:853-865 | the ratio of stakes to collateral never rises over any sequence of liquidations and additions |
| Stakes.StakeNeverExceedsCollateral | packages/contracts/errorAccumulationTest/errorAccumulationTest.js:863 | from no more stake than collateral, every new stake is at most the collateral added |
| Stakes.LastStakeWithinCollateral | packages/contracts/errorAccumulationTest/errorAccumulationTest.js:853-865 | from no more stake than collateral, the last stake the loop reports is at most the last collateral added |
| Stakes.LastStakeIs | packages/contracts/errorAccumulationTest/errorAccumulationTest.js:860-865 | the last stake reported is what the last round adds to the stakes after its liquidation, and the share of these for the collateral added, rounded down |
| Stakes.Simulate | packages/contracts/errorAccumulationTest/errorAccumulationTest.js:845-865 | the loop computes the totals of the specified run, and reports as last stake what the last round adds to the stakes left by its liquidation: their share for the collateral added, rounded down |
| TokenMarket.FeeStaysBelowLimit | packages/contracts/model/model_v2.py:53-72 | the base fee stays non-negative and below D / (2 - D) |
| TokenMarket.FeeBelowOneThird | packages/contracts/model/model_v2.py:53-72 | in every state the script reaches with its parameters, the base fee is in [0, 1/3) |
| TokenMarket.FeeBoundIsTight | packages/contracts/model/model_v2.py:67-72 | for every n some run reaches a base fee of (1 - 4^-n) / 3, so the bound cannot be lowered |
| TokenMarket.IssuanceIsMaximum | packages/contracts/model/model_v2.py:81-108 | trove issuance is the largest of zero, demand minus redemption, and last issuance times the momentum term, independent of T |
| TokenMarket.MarketClearsIff | packages/contracts/model/model_v2.py:80-108 | issuance clears the market if and only if the clearing price is not negative or momentum does not push issuance up |
| TokenMarket.MarketDoesNotClear | packages/contracts/model/model_v2.py:80-108 | in the script's first step with momentum 10, 300 are issued where 100 would clear the market |
| TokenMarket.CeilingKeepsValueIff | packages/contracts/model/model_v2.py:118-125 | a step that hits the ceiling keeps the market value of the supply if and only if nothing is redeemed or at least the whole demand is |
| TokenMarket.CeilingLosesValue | packages/contracts/model/model_v2.py:189-208 | the script's first step with momentum 1 leads to a state in which momentum -2 hits the ceiling and changes the market value |
| TokenMarket.StepKeepsInv | packages/contracts/model/model_v2.py:189-208 | a step raises exactly on a zero issuance and otherwise keeps fee, price and supply in range, with redemption within the last supply |
| TokenMarket.StepRedeems | packages/contracts/model/model_v2.py:53-64 | a step redeems supply times the distance of price and fee from one, up to the allowed fraction of the supply, and nothing once they reach one |
| TokenMarket.StepFee | packages/contracts/model/model_v2.py:67-72 | twice the supply times the new fee is D times twice the supply times the old one plus the redeemed amount |
| TokenMarket.FeeDecaysIff | packages/contracts/model/model_v2.py:67-72 | after n steps the fee is at least D^n times what it was, and exactly that if and only if no step redeemed |
| TokenMarket.StepPrice | packages/contracts/model/model_v2.py:80-125 | the price of a step is the one that clears the market, kept within 0 and 1.1; issuance clears the market or is what momentum pushes; above 1.1 the tokens left after redemption are scaled up by the excess |
| TokenMarket.RunKeepsInv | packages/contracts/model/model_v2.py:175-229 | over any run the price is in [0, 1.1], supply equals issuance and the fee is below its limit |
| TokenMarket.CollapseIff | packages/contracts/model/model_v2.py:87 | the next step divides by zero if and only if redemption exhausts the demand and momentum issues nothing |
| TokenMarket.ScriptDividesByZero | packages/contracts/model/model_v2.py:175-208 | from the initial price and fee, one surge of momentum and two periods without any lead to a division by zero |
| TokenMarket.Data.Advance | packages/contracts/model/model_v2.py:175-229 | one iteration appends the specified values to every series, which stay equally long, or raises and leaves every series as it was |
| TokenMarket.Data.RunScript | packages/contracts/model/model_v2.py:171-229 | the script reaches the state of the specified run within the invariant |
| DeploymentNames.NamesAreDistinct | packages/contracts/utils/bscDeploymentHelper.js:142-274 | no two contracts share a recorded name, whatever the collateral strings |
| Deployer.LoadOrDeployKeeps | packages/contracts/utils/bscDeploymentHelper.js:83-124 | wherever the process dies, records are kept and right and at most one contract is left unrecorded; a survivor has the contract on record |
| Deployer.RecordOne | packages/contracts/utils/bscDeploymentHelper.js:110-116 | recording one more contract leaves every record naming the contract built from the recorded addresses |
| Deployer.PlanIsOrdered | packages/contracts/utils/bscDeploymentHelper.js:141-274 | every constructor argument is deployed before the contract that takes it |
| Deployer.SessionsAreCrashSafe | packages/contracts/utils/bscDeploymentHelper.js:48-139 | over any sequence of runs cut off at any await, no record or verification changes, every record is right, no shared contract is marked verified, and each crashed run leaves at most one unrecorded contract |
| Deployer.GovernanceArguments | packages/contracts/utils/bscDeploymentHelper.js:234-249 | after any runs from nothing, a recorded Governance was built with exactly the recorded trove manager, borrower operations, price feed and ecosystem fund, in order |
| Deployer.IncentivePoolArguments | packages/contracts/utils/bscDeploymentHelper.js:251-265 | after any runs from nothing, a recorded IncentivePool was built with the recorded trove manager and the configured addresses, in order |
| Deployer.MultiTroveGetterArguments | packages/contracts/utils/bscDeploymentHelper.js:267-274 | after any runs from nothing, a recorded MultiTroveGetter was built with the recorded trove manager and sorted troves, in order |
| Deployer.OtherArguments | packages/contracts/utils/bscDeploymentHelper.js:141-232 | after any runs from nothing, the recorded oracle was built with two million and every other recorded contract with nothing, under a name made of its collateral and its ABI |
| Deployer.CompletedRunRecords | packages/contracts/utils/bscDeploymentHelper.js:126-274 | from nothing, after any crashed runs, a completed run leaves three shared records and thirteen per distinct collateral, or none for no collaterals |
| Deployer.MarkingKeeps | packages/contracts/utils/bscDeploymentHelper.js:498-501 | recording a verification keeps every contract on record and right |
| Deployer.RecordedUnlessOtherError | packages/contracts/utils/bscDeploymentHelper.js:487-501 | a submission is recorded if and only if it succeeds or ends in the plugin's own error |
| Deployer.CompletedRunVerifies | packages/contracts/utils/bscDeploymentHelper.js:276-296 | a completed run in which no submission ends in an error other than the plugin's leaves each contract of its collaterals marked as verified and no shared one |
| Deployer.FurtherRunDeploysNothing | packages/contracts/utils/bscDeploymentHelper.js:91-100 | after a completed run, a run over any of its collaterals builds nothing and records no other contract; it writes to the file only if an explorer is configured and something is unverified |
| Deployer.LongEnoughRunCompletes | packages/contracts/utils/bscDeploymentHelper.js:126-139 | whatever crashed before, a run that survives 116 awaits per collateral, for deploying, verifying and connecting, completes |
| Deployer.AwaitsAreNeeded | packages/contracts/utils/bscDeploymentHelper.js:319-468 | whatever is renounced and however submissions end, the first run for one collateral completes if and only if it survives 48 awaits for deploying, 26 for submitting if there is an explorer, 16 for asking owners, 3 for each of the eight contracts to connect that is not renounced, and 2 between |
| Deployer.AllAwaitsNeeded | packages/contracts/utils/bscDeploymentHelper.js:319-468 | with an explorer and nothing renounced these are all 116 |
| Deployer.DeploymentHelper.LoadOrDeployContract | packages/contracts/utils/bscDeploymentHelper.js:83-124 | the method's reuse, deployment, waiting, recording and saving give the specified machine, dying where it dies |
| Deployer.DeploymentHelper.DeployLiquityCore | packages/contracts/utils/bscDeploymentHelper.js:141-296 | the calls of one collateral and its verifications give the specified machine |
| Deployer.DeploymentHelper.VerifyContract | packages/contracts/utils/bscDeploymentHelper.js:473-502 | one verification gives the specified machine, recording the explorer's link unless submitting ends in an error other than the plugin's |
| Deployer.DeploymentHelper.ConnectCoreContracts | packages/contracts/utils/bscDeploymentHelper.js:319-468 | connecting the eight contracts gives the specified machine: it uses up awaits and records nothing |
| Deployer.DeploymentHelper.RunProcess | packages/contracts/utils/bscDeploymentHelper.js:48-139 | a process that loads the saved file and deploys gives the specified machine and keeps every record |
| Decimals.MakeBNIsExact | packages/contracts/utils/BNConverter.js:17-32 | a plain decimal is rejected if and only if it has more places than the precision, and otherwise yields its value times 10^precision |
| Decimals.EqualResultsIff | packages/contracts/utils/BNConverter.js:17-32 | two accepted strings give equal results if and only if they denote the same number |
| Decimals.SplitDigits | packages/contracts/utils/BNConverter.js:22-23 | splitting at the point yields the digits on both sides of a plain decimal |
| Decimals.ParseToString | packages/contracts/utils/BNConverter.js:48 | the digits a number prints as parse back to it |
| Decimals.MakeDecimalDenotes | packages/contracts/utils/BNConverter.js:47-64 | the printed string denotes n / 10^digits if and only if there is at least one digit or n is zero |
| Decimals.PrintsQuotientAndRest | packages/contracts/utils/BNConverter.js:47-64 | for at least one digit, the printed string is the quotient by 10^digits as it prints, a point, and the rest in just as many digits |
| Decimals.CanonicalIsPrinted | packages/contracts/utils/BNConverter.js:48 | a string of digits without a superfluous zero in front is how its number prints |
| Decimals.PrintThenParse | packages/contracts/utils/BNConverter.js:17-64 | parsing what was printed gives n back if and only if there is at least one digit |
| Decimals.ParseThenPrint | packages/contracts/utils/BNConverter.js:17-64 | printing what was parsed denotes the number given |
| GasHistogram.RetryUpTo | packages/fuzzer/src/GasHistogram.ts:16-41 | one send more than retries, at most times + 1; every one before the last ran out of gas, the last one only if the retries are used up; a send that throws ends the call |
| GasHistogram.ReportShape | packages/fuzzer/src/GasHistogram.ts:55-65 | the report starts and ends with bins in use and its intervals, which start at multiples of 10000, follow each other |
| GasHistogram.ReportIsFaithful | packages/fuzzer/src/GasHistogram.ts:55-65 | the report sums to the number of recorded amounts and every frequency counts exactly the amounts in its interval |
| GasHistogram.ReportIsLossless | packages/fuzzer/src/GasHistogram.ts:55-65 | the bins can be rebuilt from the report when any is in use; otherwise the report is the row (-10000, 0) |
| GasHistogram.OutOfGasFailuresAre | packages/fuzzer/src/GasHistogram.ts:67-70 | a session counts as many out-of-gas failures as first sends ran out of gas, less those whose retry got no receipt, and at most one per call |
| GasHistogram.NoneLostIff | packages/fuzzer/src/GasHistogram.ts:67-70 | every retry is counted if and only if no call runs out of gas and gets no receipt for its retry |
| GasHistogram.RetryWithoutReceipt | packages/fuzzer/src/GasHistogram.ts:67-70 | a call that makes two sends and counts no failure |
| GasHistogram.OutOfGasSendsAre | packages/fuzzer/src/GasHistogram.ts:16-41 | of all sends of a session that ran out of gas, the counter misses exactly the final ones of their calls and those whose retry got no receipt |
| GasHistogram.AcceptedAreSucceededIff | packages/fuzzer/src/GasHistogram.ts:49-53 | the recorded calls are as many as the final receipts that succeeded if and only if none of these used eight million gas or more |
| GasHistogram.Histogram.AddToGasUsedHisto | packages/fuzzer/src/GasHistogram.ts:49-53 | the bins hold one more amount, or the assertion fails and they are unchanged |
| GasHistogram.Histogram.ExpectSuccess | packages/fuzzer/src/GasHistogram.ts:67-77 | every send beyond the first is counted unless the last got no receipt, even when the call throws for its result, and the gas is recorded exactly when it does not throw |
| GasHistogram.Histogram.GetResults | packages/fuzzer/src/GasHistogram.ts:55-65 | the report of the recorded amounts, with the properties above |
| GasHistogram.Histogram.Session | packages/fuzzer/src/GasHistogram.ts:67-88 | over any mix of calls, out-of-gas failures are the sends made beyond one per `expectSuccess`, less the retries lost for want of a receipt; the recorded gas is that of the accepted final receipts; expected failures are the `expectFailure` calls that fail; and every call is counted once: in a bin, as an expected failure or as one that threw |

## Left out

- Floating-point rounding: all Python arithmetic is on `real`.
- Existence of the twentieth root: the proofs take a faithful `Library` as given and do not construct one.
- The LQTY market, stability-pool growth and the returns on liquidation (fractional powers and forecasts); the stability pool of each period is an input.
- The formulas for how many troves close and open: any numbers are covered instead.
- Counters of the data frame (`n_open`, `n_close`, `n_liquidate`, `n_troves`) and the second simulation's sharing of global series with the first.
- The token market's look-back momentum and ether price generators: momentum is an arbitrary input.
- Everything the error-accumulation scripts read from contracts: liquidated stakes and added collateral are inputs, and the comparison with on-chain values is not modelled.
- Decimals.MakeBNIsExact: speaks of unsigned plain decimals only; signs, exponents and the hexadecimal or special forms Decimal accepts are not modelled.
- Decimal and BN objects: a printed decimal is its string, an integer is unbounded.
- The deployer's network check, factories and transaction hashes, and what the transactions that connect contracts do on the chain: connecting asks owners, uses up awaits and records nothing.
- A write of the saved file cut off halfway: saving is one step, as the synchronous call is.
- Deployer.DeploymentHelper.DeployLiquityCore: the sixteen calls are a loop over a table; configuration values are symbols that stay the same between runs, and the returned contract objects are not modelled beyond their addresses.
- Console output, the error types' texts and receipts' other fields in the fuzzer.
