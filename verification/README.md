# VeilLend in Dafny

A model of the VeilLend lending protocol and of two protocols of its backend, with proofs.

* `Prelude`, `Arith`, `Sums`: shared vocabulary, truncating division, finite sums.
* `Interest`, `Rewards`, `Vesting`, `Oracle`: the arithmetic cores, as functions on values; `Charges` what one
  accrual charges and credits.
* `Ledger`: the contract's storage as one value and every entrypoint as a function from state to state or error;
  `Invariants` what every call keeps; `Health` the collateral check; `Liquidation`; `Batches` the batch
  entrypoints against the single ones; `Solvency` conservation and reward solvency at zero rates;
  `Conditions` exactly when each entrypoint succeeds, in stored prices, ages, caps and totals; `Settings` pauses,
  settings and governance actions against users; `LedgerVesting` vesting in whole runs; `Scenario`, `Overdraft` and `InPlace` runs worked out to the numbers.
* `Contract`: the contract as an object with fields, loops and in-place writes, proved to compute `Ledger`.
* `Governance`: the timelock and the admin set, as a state machine over the ledger and as an object.
* `RefreshTokens`: login and refresh-token rotation as interleaved database steps; `TokenHistory` where every
  token pair of a run comes from.
* `Indexer`: chunked, deduplicated, resumable event indexing; `Passes` what a pass leaves, in sums of deltas.

Conventions. A panic reverts the whole call, so an error carries no state. Integers are unbounded; truncation,
saturation and clamping are written out where the code has them. A record per asset and per (user, asset) merges
the storage keys of the same owner. `Book` holds running totals that no entrypoint reads; the conservation laws
are stated with them. Ledger time and sequence, prices, the reward-token balance, the answer of a wasm probe and
whether a flash-loan callback returns are inputs of the calls.

## What turned out differently from the documentation

* The comment at `veilend-soroban/src/lib.rs:4089-4091` says that conservation holds exactly. It does not:
  truncation can credit suppliers more than borrowers pay (`Interest.DustCanBeNegative`; exact condition in
  `Interest.DustNonNegativeIff`, bound in `Interest.SupplierInterestBound`).
* The comment on `ratio_to_factor` calls the two collateral rules equivalent. They are exactly when the ratio
  divides 10^8 (`Health.FactorMatchesRatioIff`).
* The documentation of `liquidate` describes clipping, a bypass below 0.95 and no bonus. The code rejects a
  repayment above the close factor with `LiquidationTooLarge`, has no bypass, and applies the discount; the model
  follows the code.
* A liquidation with one asset on both sides restores the repaid debt by its second write of the position
  (`Liquidation.LiquidationInPlace`, `Solvency.LiquidationReconciledIff`); borrow rewards can then exceed emission
  (`InPlace.InPlaceLiquidationOverpays`).
* The seize formula saturates at the largest i128 instead of failing, and then overpays: a liquidation within all
  limits can leave the position far worse (`Scenario.SaturatedLiquidationWorsens`; exact condition in
  `Liquidation.ShortfallNeverGrowsIff`).
* A withdrawal is checked against the one debt asset that it names (`Scenario.WithdrawalNamingAnotherDebt`; exact
  condition in `Health.WithdrawLeavesDebtSafeIff`).
* Rounding can drive total borrowed below zero, and the utilisation clamp does not catch it
  (`Overdraft.TotalBelowZero`, `Interest.UtilizationWithinIff`).
* The supply cap raises `SeizeExceedsCollateral`, the borrow caps `InvalidLiquidationParams` and the upper oracle
  bound `LiquidationTooLarge`; the model keeps these codes.
* Batch documentation lists supply caps on withdrawals and a final health factor on deposits and repayments; the
  code checks neither, and needs neither. Repay and withdraw batches work while paused.
* Refresh-token reuse detection is complete only while access tokens do not outlive refresh tokens
  (`RefreshTokens.ReuseResponseCompleteIff`).
* The indexer's forward jump past dropped ledgers, and a replay that starts past the covered range, leave gaps that
  polling never fills, and filling them later can end in different positions (`Indexer.ReplayPastTheCoveredRange`,
  `Indexer.OrderMatters`; exact condition in `Indexer.OnePassIff`).

## Model

| member | source | states |
|---|---|---|
| `Interest.BorrowRateMonotone` | veilend-soroban/src/interest.rs:64-95 | The borrow rate never falls as utilisation rises, on either side of the kink and across it. |
| `Interest.BorrowRateBounded` | veilend-soroban/src/interest.rs:64-95 | For accepted parameters and a utilisation of at most 100% the rate lies between the base rate and base + slope1 + slope2. |
| `Charges.RateBelowKink` | veilend-soroban/src/interest.rs:64-82 | Up to the kink the rate above the base is slope1 * utilisation / 10000, rounded down: both sides of the bracket. |
| `Charges.RateAboveKink` | veilend-soroban/src/interest.rs:83-95 | Beyond it the rate above the rate at the kink is slope2 * (utilisation - kink) / 10000, rounded down. |
| `Charges.UtilizationBracket` | veilend-soroban/src/interest.rs:39-62 | On non-negative totals utilisation is total borrowed over total supplied in basis points, rounded down and at most 10000; 0 without supply. |
| `Charges.SupplyRateBracket` | veilend-soroban/src/interest.rs:102-120 | The supply rate is borrow rate * utilisation * (1 - reserve factor), rounded down. |
| `Charges.BorrowersCharged` | veilend-soroban/src/interest.rs:128-206 | One accrual charges the borrowers' total and index what the two-slope curve at the current utilisation yields over the elapsed time, bounded on both sides by the roundings alone. |
| `Charges.SuppliersCredited` | veilend-soroban/src/interest.rs:128-206 | And credits the suppliers' total and index that rate times utilisation and the share the reserve leaves, bounded on both sides likewise. |
| `Charges.AccrualSplits` | veilend-soroban/src/lib.rs:4070-4125 | Persisting an accrual adds to the totals what was credited and charged, to the reserve the suppliers' part plus what was kept back, and to the fees what was kept back if there is a reserve factor. |
| `Interest.SupplyGrowthAtMostBorrowGrowth` | veilend-soroban/src/interest.rs:102-158 | At a utilisation of at most 100%, over any elapsed time, the suppliers' growth factor is at most the borrowers'. |
| `Interest.GrowthFitsI128` | veilend-soroban/src/lib.rs:2307-2321 | For parameters that `set_interest_params` accepts, a utilisation of at most 100% and every 64-bit elapsed time, the growth products and factors fit i128. |
| `Interest.UtilizationWithinIff` | veilend-soroban/src/interest.rs:39-62 | Utilisation is at most 100% exactly when the quotient is not negative or wraps back into range modulo 2^32; within a signed 32-bit word, exactly when it is not negative. |
| `Overdraft.TotalBelowZero` | veilend-soroban/src/lib.rs:1646-1687 | From the constructor, at accepted parameters: one unit of debt realises to two while the aggregate stays at one, repaying it leaves total borrowed at -1, the cast shows more than four billion, and rates and interest leave their bounds. |
| `Interest.IndexesNeverFall` | veilend-soroban/src/interest.rs:128-190 | An accrual never lowers an index, whatever the totals. |
| `Interest.SupplierInterestBound` | veilend-soroban/src/interest.rs:128-206 | On non-negative totals an accrual credits suppliers at most the borrowers' interest plus total borrowed / RATE_SCALE plus 1, through all five truncations and the utilisation clamp. |
| `Interest.ExactGrowthHasNoNegativeDust` | veilend-soroban/src/interest.rs:150-206 | On non-negative totals, when the borrow growth division is exact, suppliers never receive more than borrowers pay. |
| `Interest.DustCanBeNegative` | veilend-soroban/src/interest.rs:183-206 | At 1% a year, 6 seconds and 90% utilisation the dust is -1, so conservation does not hold exactly. |
| `Interest.DustNonNegativeIff` | veilend-soroban/src/interest.rs:39-206 | For a utilisation and an elapsed time, no pair of non-negative totals has negative dust if and only if the rounded growth factors keep the utilised share. |
| `Interest.RealiseIsScaling` | veilend-soroban/src/interest.rs:218-245 | Realising a balance multiplies it by index/snapshot, rounded down, and never shrinks it. |
| `Interest.RealiseIdempotent` | veilend-soroban/src/interest.rs:218-245 | Realising a position twice against one interest state is realising it once. |
| `Interest.TouchPathNeverGains` | veilend-soroban/src/interest.rs:218-245 | Touching a balance at any rising chain of indexes never yields more than realising it once from the first to the last. |
| `Interest.TouchPathLossBound` | veilend-soroban/src/interest.rs:218-245 | Nor does it lose as much as the sum, over the touches, of last index / index at the touch. |
| `Interest.TouchesFollowChains` | veilend-soroban/src/interest.rs:218-245 | Both balances of a position touched against successive states follow such chains. |
| `Interest.OneAccrualWithinAggregates` | veilend-soroban/src/interest.rs:159-245 | For any number of positions anchored before one accrual, realised deposits stay within the new total deposited and realised debts within the new total borrowed. |
| `Interest.TwoAccrualsCanOutgrowAggregate` | veilend-soroban/src/interest.rs:159-245 | Two accruals without a touch can: one unit of debt realises to two while the aggregate still says one. |
| `Interest.DriftAfterAccruals` | veilend-soroban/src/interest.rs:128-245 | After any number of accruals at any rates, untouched positions that added up to the aggregates exceed them by at most one compounded unit per accrual, and fall short by at most one unit per position plus, per index unit held, one compounded unit per accrual. |
| `Interest.AggregateCanOutgrowPositions` | veilend-soroban/src/interest.rs:159-245 | The other direction: two deposits of one unit realise to one each while the aggregate becomes three. |
| `Rewards.AdvanceWithinEmission` | veilend-soroban/src/rewards.rs:30-75 | An index advance hands balances within the total at most what the speed emitted. |
| `Rewards.FoldNeverGains` | veilend-soroban/src/rewards.rs:82-128 | Folding a pending reward into a counter never creates value. |
| `Rewards.HolderEarnsShare` | veilend-soroban/src/rewards.rs:30-128 | A balance held over one advance earns its pro-rata share of what was emitted, bounded on both sides by the two roundings. |
| `Conditions.TouchPaysShare` | veilend-soroban/src/rewards.rs:283-300 | So does a user settled at the pool's last advance and touched again, on each side of the market from that side's balance, speed and total. |
| `Vesting.VestedMonotone` | veilend-soroban/src/rewards.rs:139-155 | What has vested only grows and stays between 0 and the granted amount. |
| `Vesting.VestedBySchedule` | veilend-soroban/src/rewards.rs:139-155 | Nothing before the cliff; from the cliff to the end v * duration <= amount * elapsed < (v + 1) * duration; the full amount from the end on, or at once without a duration. |
| `Vesting.VestedIsScheduleRoundedDown` | veilend-soroban/src/rewards.rs:139-155 | At every time what has vested is the real-valued schedule rounded down. |
| `Vesting.PruningUnobservable` | veilend-soroban/src/rewards.rs:566-597 | Dropping finished grants changes neither what is releasable nor what a claim leaves. |
| `Vesting.PayoutIsRiseInClaimed` | veilend-soroban/src/rewards.rs:566-597 | The amount the first loop transfers is exactly the rise in the claimed counters that the second loop writes. |
| `Vesting.AccountMatchesUnpruned` | veilend-soroban/src/rewards.rs:357-388 | At every point of every run the stored grants are all grants ever pushed, with the finished ones hidden, and payments are what those record. |
| `Vesting.ScheduleIndependence` | veilend-soroban/src/rewards.rs:566-597 | Right after a claim, whatever was claimed before, the user has been paid exactly what all grants had vested by then, and the grants left are those not fully paid. |
| `Vesting.UnfinishedKeepsOwed` | veilend-soroban/src/rewards.rs:585-592 | A grant is dropped exactly when every unit of it has been paid. |
| `Vesting.ClaimPaysOutstanding` | veilend-soroban/src/rewards.rs:566-597 | A claim pays exactly the fall in what is outstanding. |
| `LedgerVesting.OtherCallsKeepGrants` | veilend-soroban/src/rewards.rs:217-228 | No call but a claim or a vesting payout changes any grant, and none turns back the clock. |
| `LedgerVesting.GrantsFollowEvents` | veilend-soroban/src/rewards.rs:337-388 | In every run of the ledger a user's grants and payouts are those of a vesting account fed with that user's own claims. |
| `LedgerVesting.PaidWhatVested` | veilend-soroban/src/rewards.rs:566-597 | Right after a successful vesting claim in any run, at any interest rates, the user has been paid exactly what all their grants had vested. |
| `LedgerVesting.PaidBySchedule` | veilend-soroban/src/rewards.rs:566-597 | So right after a claim the payments add up to the linear schedules of all the user's grants, short by less than one unit per grant. |
| `Oracle.AlwaysOnRails` | veilend-soroban/src/lib.rs:1251-1275 | In every reachable record 0 < min <= max, and a stored price lies between them. |
| `Oracle.ReadPriceIff` | veilend-soroban/src/lib.rs:4506-4540 | A price reads exactly when it is stored, positive and no older than the age limit, and the stored price is what reads. |
| `Oracle.SetPriceIff` | veilend-soroban/src/lib.rs:3613-3703 | A price is accepted exactly when it lies within the bounds and its change, as a rounded-down share of the old price, within the limit; then price and time are stored. |
| `Oracle.OneUpdate` | veilend-soroban/src/lib.rs:3613-3703 | One accepted update under a limit of m bps moves the price by strictly less than m + 1 bps either way. |
| `Oracle.CompoundedChange` | veilend-soroban/src/lib.rs:3613-3703 | After n updates under a constant limit m > 0 the price is at most ((10001+m)/10000)^n, and for m <= 9999 at least ((9999-m)/10000)^n, of the first. |
| `Invariants.AccrueAssetFacts` | veilend-soroban/src/lib.rs:4022-4165 | What an accrual persists is what simulation shows, before and after it, and a second accrual at the same time changes nothing. |
| `Invariants.RealisedSound` | veilend-soroban/src/lib.rs:4456-4465 | A read position is no smaller than the stored one and anchored at the simulated indexes. |
| `Invariants.QuoteBounds` | veilend-soroban/src/lib.rs:2211-2249 | An accepted liquidation repays a positive part of the debt within the caller's limit and seizes at most the deposit. |
| `Invariants.CallKeepsSound` | veilend-soroban/src/lib.rs:1546-2725 | Every call, successful or reverted, keeps: balances non-negative and anchored below the live indexes, collateral factor <= threshold, oracle rails, a duplicate-free asset list, and both identities below. |
| `Invariants.EveryRunIsSound` | veilend-soroban/src/lib.rs:990-1022 | That invariant holds in every state that any sequence of calls reaches. |
| `Invariants.LedgerIdentity` | veilend-soroban/src/lib.rs:4070-4125 | In every reachable state reserve + total borrowed - total deposited is exactly the accruals' backing + fees recorded - fees withdrawn - repayment dust - write-offs, and withdrawable fees are what was earned minus what was withdrawn. |
| `Health.AccrueUnseen` | veilend-soroban/src/lib.rs:4456-4465 | Accruing an asset at the current time changes no position that a read returns, for any user and asset. |
| `Health.PostSeen` | veilend-soroban/src/lib.rs:4166-4178 | A written position is what a read returns, and no other position changes. |
| `Health.OperationEffect` | veilend-soroban/src/lib.rs:1546-1745 | A successful deposit, borrow, repayment or withdrawal moves the caller's balance, the aggregate and the reserve by the amount, forgives a remainder of at most 100, and touches no other position, asset or setting. |
| `Conditions.DepositIff` | veilend-soroban/src/lib.rs:1546-1584 | A deposit succeeds exactly when nothing is paused, the asset is listed, the amount positive and the total stays within both caps. |
| `Conditions.RepayIff` | veilend-soroban/src/lib.rs:1646-1687 | A repayment succeeds exactly when it is positive and at most the debt with interest up to now, paused or not. |
| `Conditions.BorrowIff` | veilend-soroban/src/lib.rs:1586-1644 | A borrow succeeds exactly when switches, caps and reserve allow it, the debt asset's stored price and those of all the user's deposits are within the age limit, and the deposits at these prices and their factors cover the debt with the new amount. |
| `Conditions.WithdrawIff` | veilend-soroban/src/lib.rs:1689-1745 | A withdrawal succeeds exactly when deposit and reserve suffice and the named debt is nil, or all prices needed for the deposits left are fresh and the deposits cover it; paused or not. |
| `Conditions.LiquidateIff` | veilend-soroban/src/lib.rs:2160-2249 | A liquidation succeeds exactly when both assets and all the user's deposits have fresh prices, the debt outweighs the threshold-weighted deposits at these prices, and the repayment is within the close factor. |
| `Conditions.SeizedBracket` | veilend-soroban/src/lib.rs:2228-2249 | It seizes the repayment plus the discount at the stored prices, rounded down, or the whole deposit if that is less, whenever the product fits i128. |
| `Conditions.SoleBorrowIff` | veilend-soroban/src/lib.rs:4352-4404 | A user with one deposit can borrow exactly up to that asset's collateral factor of its worth. |
| `Conditions.SoleLiquidateIff` | veilend-soroban/src/lib.rs:2211-2226 | And can be liquidated exactly when the debt exceeds its liquidation threshold of that worth. |
| `Conditions.WriteoffIff` | veilend-soroban/src/lib.rs:2058-2111 | A write-off succeeds exactly when there is no debt or no deposit in any listed asset, clears that debt and touches no other position. |
| `Conditions.FlashLoanIff` | veilend-soroban/src/flash_loan.rs:209-291 | A flash loan succeeds exactly within its switches, its share of the reserve and the reserve; reserve, fees and total deposited then grow by the premium, rounded up. |
| `Conditions.FeesIff` | veilend-soroban/src/lib.rs:3791-3870 | Fees are recorded within the limit on the net reserve and withdrawn within what was recorded. |
| `Conditions.RiskAcceptedIff` | veilend-soroban/src/lib.rs:3163-3225 | Risk parameters are accepted exactly for a listed asset with factor <= threshold <= 10000, bonus <= 2000 and threshold + bonus <= 10000. |
| `Conditions.RatesAcceptedIff` | veilend-soroban/src/lib.rs:2301-2321 | Interest parameters are accepted exactly for a listed asset, unpaused and within their ranges, and then every rate is at most 1000% a year. |
| `Health.PreWriteCheckIsPostWriteCheck` | veilend-soroban/src/lib.rs:4352-4404 | The check made before the write, with the pending borrow or withdrawal applied on the fly, gives the verdict of a plain check on the written state. |
| `Health.WeightedValueMono` | veilend-soroban/src/lib.rs:4376-4398 | More deposits at heavier weights are worth at least as much and read at least as many prices. |
| `Health.WeightedValueReadable` | veilend-soroban/src/lib.rs:4376-4398 | A weighted sum exists exactly when every asset that counts has a readable price. |
| `Health.HealthyHasNoQuote` | veilend-soroban/src/lib.rs:2211-2226 | A user who passes the collateral check for a debt asset is never quoted a liquidation of it. |
| `Health.BorrowThenNotLiquidatable` | veilend-soroban/src/lib.rs:1607-1630 | Right after a successful borrow, at the same time and prices, no liquidation of that debt succeeds, for any liquidator, collateral and amount. |
| `Health.WithdrawThenNotLiquidatable` | veilend-soroban/src/lib.rs:1689-1745 | The same after a withdrawal, for the debt asset it was checked against. |
| `Health.WithdrawLeavesDebtSafeIff` | veilend-soroban/src/lib.rs:4362-4367 | After a withdrawal any debt of the user, named or not, is refused liquidation if and only if there is none or the collateral left covers it at the thresholds. |
| `Health.SoleDebtorNotLiquidatable` | veilend-soroban/src/lib.rs:1689-1745 | A user who owes nothing but the named debt cannot be liquidated at all after a withdrawal. |
| `Scenario.WithdrawalNamingAnotherDebt` | veilend-soroban/src/lib.rs:4362-4367 | By naming an asset they do not owe, a user who owes 60 withdraws all 100 of the collateral, and a liquidation then seizes nothing. |
| `Health.FactorIsCeiling` | veilend-soroban/src/lib.rs:4447-4452 | The fallback factor is the ceiling of 10^8 over the ratio and at most 10000. |
| `Health.FactorAgainstRatio` | veilend-soroban/src/lib.rs:4440-4452 | What the ratio rule accepts the factor rule accepts; what the factor rule accepts misses the ratio rule by at most the rounding. |
| `Health.FallbackAgainstRatioRule` | veilend-soroban/src/lib.rs:4376-4452 | The same for the sum over all of a user's deposits, as the collateral check computes it. |
| `Health.FactorMatchesRatioIff` | veilend-soroban/src/lib.rs:4444-4446 | The two rules agree on every collateral and debt if and only if the ratio divides 10^8. |
| `Liquidation.LiquidationMovesValue` | veilend-soroban/src/lib.rs:2211-2272 | With distinct assets the debt, total borrowed and reserve move by the repaid amount, the collateral asset's deposits keep their sum, and nothing else moves. `Liquidation.LiquidationInPlace` is the other case. |
| `Liquidation.LiquidationInPlace` | veilend-soroban/src/lib.rs:2251-2272 | With one asset on both sides total borrowed falls and the reserve rises by the repaid amount and the deposit is seized, but the debt stays what it was; nothing else moves. |
| `Liquidation.ShortfallInPlace` | veilend-soroban/src/lib.rs:2251-2272 | Such a liquidation raises the shortfall by the seized deposit's worth at the threshold. |
| `Liquidation.SeizeWithinDiscountIff` | veilend-soroban/src/lib.rs:2241-2249 | The seized value respects the discount if and only if the scaled repayment fits i128, or the deposit is too small for the saturated amount, or that amount is covered anyway. |
| `Liquidation.LiquidationWithinDiscount` | veilend-soroban/src/lib.rs:2228-2249 | seized * price <= repaid * debt price * (10000 + discount) / 10000 whenever the product fits, which it does if the debt's scaled value fits and the close factor leaves room for the discount. |
| `Liquidation.ShortfallChange` | veilend-soroban/src/lib.rs:2211-2272 | With distinct assets a liquidation changes the shortfall by exactly what the seizure costs at the threshold less what the repayment brings at full weight. |
| `Liquidation.ShortfallNeverGrowsIff` | veilend-soroban/src/lib.rs:2241-2272 | With threshold + discount <= 10000 and distinct assets, a liquidation leaves no larger shortfall if and only if the user liquidates themselves, or the scaled repayment fits i128, or the most that the saturated formula can seize is covered by the repayment. |
| `Liquidation.ShortfallNeverGrows` | veilend-soroban/src/lib.rs:2211-2272 | It never does when, besides, the close factor times 100% plus discount stays within 100% and the debt's value at full weight fits i128. |
| `Scenario.SaturatedLiquidationWorsens` | veilend-soroban/src/lib.rs:2241-2249 | Otherwise it can: with every product of the checks inside i128, a liquidation takes the whole deposit for 70% of the debt, and the shortfall grows more than a hundred-thousandfold. |
| `Scenario.LiquidationHappens` | veilend-soroban/src/lib.rs:2160-2290 | One run worked out: a borrow of 60 against 100, no liquidation at that price, and after the debt's price doubles a repayment of 30 for 63 of the collateral. |
| `Batches.TouchAndPostForm` | veilend-soroban/src/lib.rs:1563-1575 | An operation body rewrites exactly one asset record and one account. |
| `Batches.BodiesCommute` | veilend-soroban/src/lib.rs:4562-4570 | Accruing any asset before or after a batch's operations is the same. |
| `Batches.UpFrontAccrual` | veilend-soroban/src/lib.rs:4562-4570 | Accruing every asset of a batch up front changes nothing in the end. |
| `Batches.CapsAfterBodies` | veilend-soroban/src/lib.rs:4572-4598 | After some operations an asset's caps see what they would have seen before them plus the amounts moved. |
| `Batches.CapsHoldLast` | veilend-soroban/src/lib.rs:4572-4630 | The per-asset totals fit exactly when they fit without the last operation and that one fits after the others. |
| `Batches.SequenceEndsWithinCaps` | veilend-soroban/src/lib.rs:4254-4345 | No successful sequence of deposits or borrows leaves an asset it touched above a cap. |
| `Batches.EachOkIff` | veilend-soroban/src/lib.rs:1546-1745 | A sequence of single operations succeeds exactly when these initial checks, the bodies and every prefix's health check pass. |
| `Batches.DepositBatchIsFold` | veilend-soroban/src/lib.rs:2381-2439 | A deposit batch succeeds exactly when its deposits one by one do, with the same state, except that only the batch rejects an empty list while paused. |
| `Batches.RepayBatchIsFold` | veilend-soroban/src/lib.rs:2659-2725 | A repay batch is its repayments one by one, in success and state, for every state and list. |
| `Batches.BorrowBatchRefinesSequence` | veilend-soroban/src/lib.rs:2566-2638 | A borrow batch succeeds exactly when its borrows one by one do and the joint check passes, with the same state up to the collateral's own accrual. |
| `Batches.BorrowBatchThenNotLiquidatable` | veilend-soroban/src/lib.rs:4684-4724 | After a borrow batch none of the debts it names can be liquidated. |
| `Conditions.BorrowBatchPriced` | veilend-soroban/src/lib.rs:4684-4724 | A successful borrow batch had fresh prices for every asset it names and every asset the user has a deposit in, and the deposits at these prices cover all the named debts together. |
| `Conditions.WithdrawBatchPriced` | veilend-soroban/src/lib.rs:4637-4676 | A successful withdraw batch leaves the named debt nil or covered at fresh prices by the deposits left. |
| `Batches.WithdrawBatchIsSequence` | veilend-soroban/src/lib.rs:2466-2545 | A non-empty withdraw batch succeeds if its withdrawals one by one do, with the same state up to the debt asset's accrual; the converse holds exactly when the prices needed after the first withdrawal can be read. |
| `Batches.ReadablePricesMakeThemEqual` | veilend-soroban/src/lib.rs:4637-4676 | With every listed asset and the debt asset readable the two succeed together. |
| `Solvency.AdvanceKeeps` | veilend-soroban/src/rewards.rs:262-279 | Advancing a pool promises its users at most what it emits, because their balances fit in the total. |
| `Solvency.TouchKeeps` | veilend-soroban/src/rewards.rs:283-300 | A snapshot-on-touch keeps the reward slack of every asset and side from shrinking. |
| `Solvency.PutPositionEffect` | veilend-soroban/src/lib.rs:4166-4178 | Writing a position changes exactly the gap between that asset's aggregate and its positions, and owes no more rewards if the account was touched or shrinks. |
| `Solvency.CallKeepsBacked` | veilend-soroban/src/lib.rs:1546-2725 | At zero rates every call keeps grants backed by what was taken from counters, moves the gap between aggregate and positions only by what a same-asset liquidation repays, and shrinks no reward slack where there is no gap. |
| `Solvency.AggregatesEqualPositions` | veilend-soroban/src/lib.rs:1546-1745 | In every reachable state at zero rates total deposited is the sum of the users' deposits plus flash-loan premiums, and total borrowed the sum of their debts less what same-asset liquidations repaid. |
| `Solvency.NothingLostIff` | veilend-soroban/src/lib.rs:2251-2272 | That difference is zero exactly when no liquidation of the asset against itself succeeded. |
| `Solvency.TotalsNonNegative` | veilend-soroban/src/interest.rs:39-62 | At zero rates total deposited is never negative, and without a same-asset liquidation neither is total borrowed, so that utilisation is at most 100%. |
| `Solvency.RewardsNeverExceedEmission` | veilend-soroban/src/rewards.rs:30-128 | At zero rates granted + unclaimed + pending rewards never exceed what the speeds emitted, through late joiners, speed changes, liquidations, write-offs and flash loans: on the supply side of every asset in every reachable state, on the borrow side if the asset was never liquidated against itself. |
| `Solvency.RealizeUnclaimedKeeps` | veilend-soroban/src/rewards.rs:337-355 | Moving counters into a grant takes exactly what they held. |
| `Solvency.PayoutsNeverExceedEmission` | veilend-soroban/src/rewards.rs:531-597 | No run at zero rates pays out more than it granted, nor, if no asset was liquidated against itself, grants more than was emitted over all assets and both sides. |
| `InPlace.InPlaceLiquidationOverpays` | veilend-soroban/src/rewards.rs:30-128 | A run from the constructor at zero rates, with one same-asset liquidation, grants a borrower 200 where 100 were emitted. |
| `Solvency.LiquidationReconciledIff` | veilend-soroban/src/lib.rs:2251-2272 | At zero rates a successful liquidation keeps total borrowed equal to the sum of debts if and only if collateral and debt are different assets. |
| `Settings.PauseSparesExits` | veilend-soroban/src/lib.rs:4228-4235 | With the pause on or off, repayments, withdrawals, their batches, liquidations and claims give the same result, error or effect. |
| `Settings.PauseStopsEntries` | veilend-soroban/src/lib.rs:4215-4228 | While paused no deposit, borrow, batch of these, flash loan, write-off, accrual or immediate setting succeeds. |
| `Settings.PauseTakesEffect` | veilend-soroban/src/lib.rs:1488-1504 | That holds from the call after an executed pause, until the pause is lifted. |
| `Settings.SettingsAreProspective` | veilend-soroban/src/lib.rs:2301-2325 | No setting, no governance action and no accrual moves any user's balances with interest up to now: new rates count from now on. |
| `Settings.SpeedsAreProspective` | veilend-soroban/src/rewards.rs:433-462 | New reward speeds leave both indexes where the old speeds have taken them and count from now on. |
| `Settings.CapsTakeEffect` | veilend-soroban/src/lib.rs:2005-2044 | A cap of either kind, once set, binds the total after a deposit or borrow at any later time. |
| `Contract.GroupByAsset` | veilend-soroban/src/lib.rs:4574-4590 | The nested scan produces every asset of the batch once, in order of appearance, with its total. |
| `Contract.DeduplicateAssets` | veilend-soroban/src/lib.rs:4546-4554 | The loop lists every asset once, in order of first appearance. |
| `Contract.VeilLend.AccrueAndPersist` | veilend-soroban/src/lib.rs:4022-4125 | The stepwise writes of an accrual leave the state of `Ledger.Accrue`, whose amounts `Charges` bounds on both sides. |
| `Contract.VeilLend.AdvanceRewardIndexes` | veilend-soroban/src/rewards.rs:262-279 | The early return and the two guarded index steps leave the specified pool record. |
| `Contract.VeilLend.AccrueUserRewards` | veilend-soroban/src/rewards.rs:283-300 | Advance, fold and re-anchor leave the specified state. |
| `Contract.VeilLend.WeightedCollateral` | veilend-soroban/src/lib.rs:4376-4398 | The loop over listed assets computes the weighted value, or the first price error. |
| `Contract.VeilLend.AssertCollateralized` | veilend-soroban/src/lib.rs:4352-4404 | The collateral check returns the verdict of `Ledger.CheckHealth`, which `Conditions.CheckIffCovered` states in stored prices and ages. |
| `Contract.VeilLend.CheckCapsOfBatch` | veilend-soroban/src/lib.rs:4572-4630 | Grouping and checking decides the specified caps verdict. |
| `Contract.VeilLend.Deposit` | veilend-soroban/src/lib.rs:1546-1584 | The entrypoint computes the specified outcome, error cases included. |
| `Contract.VeilLend.Borrow` | veilend-soroban/src/lib.rs:1586-1644 | The entrypoint computes the outcome of `Ledger.Borrow`, error cases included; `Conditions.BorrowIff` says when it succeeds. |
| `Contract.VeilLend.Repay` | veilend-soroban/src/lib.rs:1646-1687 | The entrypoint computes the specified outcome, error cases included. |
| `Contract.VeilLend.Withdraw` | veilend-soroban/src/lib.rs:1689-1745 | The entrypoint computes the outcome of `Ledger.Withdraw`, error cases included; `Conditions.WithdrawIff` says when it succeeds. |
| `Contract.VeilLend.ExecuteAll` | veilend-soroban/src/lib.rs:2399-2433 | The batch loop runs the operation bodies in turn and stops at the first that fails. |
| `Contract.VeilLend.DepositBatch` | veilend-soroban/src/lib.rs:2381-2439 | The entrypoint computes the specified outcome. |
| `Contract.VeilLend.WithdrawBatch` | veilend-soroban/src/lib.rs:2466-2545 | The entrypoint computes the outcome of `Ledger.WithdrawBatch`; see `Conditions.WithdrawBatchPriced`. |
| `Contract.VeilLend.BorrowBatch` | veilend-soroban/src/lib.rs:2566-2638 | The entrypoint computes the outcome of `Ledger.BorrowBatch`; see `Conditions.BorrowBatchPriced`. |
| `Contract.VeilLend.RepayBatch` | veilend-soroban/src/lib.rs:2659-2725 | The entrypoint computes the specified outcome. |
| `Contract.VeilLend.RequireBatchCovered` | veilend-soroban/src/lib.rs:4684-4724 | The loop over touched assets computes the joint debt and its verdict. |
| `Contract.VeilLend.Liquidate` | veilend-soroban/src/lib.rs:2160-2290 | The entrypoint, with the positions it reads early and writes late, computes the outcome of `Ledger.Liquidate`; `Conditions.LiquidateIff` says when it succeeds. |
| `Contract.VeilLend.WriteoffBadDebt` | veilend-soroban/src/lib.rs:2058-2111 | The loop over listed assets stops at the first deposit, otherwise the debt is written off as specified. |
| `Contract.VeilLend.FlashLoan` | veilend-soroban/src/flash_loan.rs:209-291 | Debit, callback and repayment with premium compute the specified outcome. |
| `Contract.VeilLend.ClaimAll` | veilend-soroban/src/rewards.rs:542-560 | The loop over listed assets realises them into one grant. |
| `Contract.VeilLend.VestClaimable` | veilend-soroban/src/rewards.rs:566-597 | The two loops pay what is releasable and keep the unfinished grants; what that adds up to is `LedgerVesting.PaidBySchedule`. |
| `Contract.VeilLend.Transact` | veilend-soroban/src/lib.rs:1546-2725 | One transaction either takes effect as specified or restores everything, and keeps the ledger invariant. |
| `Governance.PendingIsOutstanding` | veilend-soroban/src/lib.rs:3228-3317 | The pending table holds exactly the proposals not yet executed or cancelled, each with the payload and delay of its proposal. |
| `Governance.ExecutionIff` | veilend-soroban/src/lib.rs:3265-3292 | In any run an execution succeeds if and only if an admin sends it, pausing allows it, and an earlier, unconsumed proposal of that id and kind has passed its snapshotted delay and still applies; it applies exactly that payload. |
| `Governance.CancelIff` | veilend-soroban/src/lib.rs:3296-3317 | In any run a cancellation succeeds if and only if an earlier proposal of that id and kind is still outstanding and the caller is an admin or its proposer. |
| `Governance.OnlyAdminsGovern` | veilend-soroban/src/lib.rs:1025-1091 | In any run what changes admins, delay or the actions on offer is a request sent by an admin of that moment, and admins change by the one address named. |
| `Governance.TimelockSafety` | veilend-soroban/src/lib.rs:3228-3260 | An executed action was proposed by a then-admin at least its delay earlier (saturating), at least 2000 ledgers for an upgrade, whatever the delay was set to since. |
| `Governance.AtMostOnce` | veilend-soroban/src/lib.rs:3142-3152 | No id is proposed twice and no action is executed or cancelled twice. |
| `Governance.EveryRunWellFormed` | veilend-soroban/src/lib.rs:1025-1091 | The admin set stays non-empty and duplicate-free and the delay within its bounds. |
| `Governance.GovernedRunIsLedgerRun` | veilend-soroban/src/lib.rs:3320-3376 | Every governed run is a run of ledger calls, so all results above hold under governance. |
| `Governance.Governor.Propose` | veilend-soroban/src/lib.rs:3228-3260 | The entrypoint stores the validated action under a new id with its delay fixed. |
| `Governance.Governor.Execute` | veilend-soroban/src/lib.rs:3265-3292 | The entrypoint computes the specified outcome and forgets the action. |
| `Governance.Governor.Cancel` | veilend-soroban/src/lib.rs:3296-3317 | The entrypoint computes the specified outcome. |
| `Governance.Governor.Remove` | veilend-soroban/src/lib.rs:1044-1069 | The rebuilding loop removes exactly one admin and never the last. |
| `RefreshTokens.NextSane` | veilend-backend/src/auth/auth.service.ts:344-518 | Every atomic step keeps the row invariants, under any interleaving of requests, logins, logouts and cleanups. |
| `RefreshTokens.OneTokenOneExchange` | veilend-backend/src/auth/auth.service.ts:379-410 | A family never has two unrevoked refresh tokens, a wallet never two unused nonces, and no nonce or refresh token is exchanged twice. |
| `TokenHistory.LookUpIff` | veilend-backend/src/auth/auth.service.ts:344-390 | A look-up finds a token exactly when its row exists, is unrevoked and has not expired at that step; a revoked row starts the reuse response, anything else is refused. |
| `TokenHistory.LoginIff` | veilend-backend/src/auth/auth.service.ts:190-260 | A login opens a session exactly for an unused, unexpired nonce generated for that wallet. |
| `TokenHistory.EveryPairHasHistory` | veilend-backend/src/auth/auth.service.ts:344-440 | Every token pair of every run goes back to the arrival of its parent, a later look-up at which the parent's row was unrevoked and unexpired, issued less than 30 days before, and a later exchange that spent it; or to a login whose nonce was generated for that wallet less than five minutes before and used once. |
| `TokenHistory.CleanupKeepsUnexpired` | veilend-backend/src/auth/auth.service.ts:773-787 | Cleanup deletes no refresh-token row that has not expired. |
| `TokenHistory.RevocationEndsSessions` | veilend-backend/src/auth/auth.service.ts:705-725 | Once a session is revoked none of its access tokens is accepted. |
| `RefreshTokens.RevokedFamilyMintsNothing` | veilend-backend/src/auth/auth.service.ts:473-488 | Once a reuse response has revoked a family, no continuation of the run mints anything in it. |
| `RefreshTokens.CleanTokensKeepsLive` | veilend-backend/src/auth/auth.service.ts:773-787 | Cleanup drops a refresh-token row only when its access token has expired, given the lifetimes. |
| `RefreshTokens.ReuseResponseCompleteIff` | veilend-backend/src/auth/auth.service.ts:473-518 | When a reuse response ends no access token of the family is accepted, in every interleaving, if and only if access tokens live at most one millisecond longer than refresh tokens. |
| `RefreshTokens.LongLivedTokenEscapes` | veilend-backend/src/auth/auth.service.ts:773-787 | With a longer access lifetime a concrete run leaves an acceptable access token in a revoked family. |
| `RefreshTokens.TokenStore.GenerateNonce` | veilend-backend/src/auth/auth.service.ts:54-98 | The transaction retires the wallet's nonces and stores a new one. |
| `RefreshTokens.TokenStore.IssueTokenPair` | veilend-backend/src/auth/auth.service.ts:107-174 | Jti row, refresh-token row and session are written as specified. |
| `RefreshTokens.TokenStore.VerifyWallet` | veilend-backend/src/auth/auth.service.ts:190-300 | The conditional claim succeeds exactly when specified and opens a session, or nothing changes. |
| `RefreshTokens.TokenStore.Advance` | veilend-backend/src/auth/auth.service.ts:344-518 | Each database step of a refresh request is that of `RefreshTokens.Next`; what it takes to get through is `TokenHistory.LookUpIff` and `TokenHistory.EveryPairHasHistory`. |
| `RefreshTokens.TokenStore.Rotate` | veilend-backend/src/auth/auth.service.ts:392-435 | Claim before mint; a lost claim becomes a reuse response. |
| `RefreshTokens.TokenStore.CleanupExpiredTokens` | veilend-backend/src/auth/auth.service.ts:773-787 | Both deletions are the specified ones. |
| `Indexer.DuplicateIffSeen` | veilend-backend/src/indexer/indexer.repository.ts:216-245 | On chain events the duplicate check decides exactly whether the event is in the history, whatever the lookaside table has forgotten. |
| `Indexer.TablesFollowCommitted` | veilend-backend/src/indexer/indexer.repository.ts:407-577 | After any run history and positions depend on the committed ranges alone, and positions are one clamped pass over the history, which `Passes` gives in sums. |
| `Passes.BalanceIsSuffixMaximum` | veilend-backend/src/indexer/indexer.repository.ts:600-660 | After a pass over any events each balance of a (user, asset) is the largest sum of that key's and side's own deltas over a suffix of the events, 0 for the empty one. |
| `Passes.RowIffNamed` | veilend-backend/src/indexer/indexer.repository.ts:607-611 | A position row exists exactly for the keys that some event names. |
| `Passes.PlainSumIff` | veilend-backend/src/indexer/indexer.repository.ts:636-642 | A balance is the plain sum of its deltas exactly when no prefix of the events sums below zero. |
| `Passes.PositionsAreSuffixMaxima` | veilend-backend/src/indexer/indexer.repository.ts:407-577 | In every run, crashes and repeats included, all three hold of the position table and the history. |
| `Indexer.ExactlyOnce` | veilend-backend/src/indexer/indexer.repository.ts:407-540 | The history holds every event of a committed range, nothing else, and nothing twice. |
| `Indexer.OneUninterruptedPass` | veilend-backend/src/indexer/indexer.service.ts:205-260 | If chunks start within or right after what is covered, history and positions are those of one pass in ledger order, for any chunk size, crashes and re-runs. |
| `Indexer.OnePassIff` | veilend-backend/src/indexer/indexer.service.ts:205-260 | For any run, history and positions are those of one pass over a span of ledgers if and only if every event a chunk adds comes from a later ledger than those added before, and the chunks cover the events of the span and no others. |
| `Indexer.SkippingIff` | veilend-backend/src/indexer/indexer.service.ts:158-172 | One chunk that skips ahead still gives that history if and only if the skipped ledgers hold no event. |
| `Indexer.OrderMatters` | veilend-backend/src/indexer/indexer.repository.ts:638-642 | A run that indexes the second of two ledgers first clamps the withdrawal, and the position ends ten too high. |
| `Indexer.SkippedForGood` | veilend-backend/src/indexer/indexer.service.ts:158-190 | Once the checkpoint has passed an event that is not in the history, no number of polls ever indexes it. |
| `Indexer.ReplayPastTheCoveredRange` | veilend-backend/src/indexer/indexer.service.ts:277-310 | After ledger 1 and a replay of ledger 5 the next poll starts at 6, and the ledgers 2 to 4 are never indexed by polling. |
| `Indexer.ChunksPartition` | veilend-backend/src/indexer/indexer.service.ts:220-230 | Every ledger of a range falls into exactly one chunk. |
| `Indexer.CheckpointIsLastChunk` | veilend-backend/src/indexer/indexer.repository.ts:571-573 | The checkpoint is the end of the last committed chunk. |
| `Indexer.ResumeIsContiguous` | veilend-backend/src/indexer/indexer.service.ts:150-185 | After any run whose ranges started within or right after what was covered, crashes included, resuming from the checkpoint does too, unless the node has dropped ledgers. |
| `Indexer.IndexerService.IsEventDuplicate` | veilend-backend/src/indexer/indexer.repository.ts:216-245 | Lookaside then history scan decide the specified question. |
| `Indexer.IndexerService.ApplyPositionDelta` | veilend-backend/src/indexer/indexer.repository.ts:600-660 | The clamped update is `Indexer.ApplyDelta` on both balances, whose meaning over any events is `Passes.BalanceIsSuffixMaximum`. |
| `Indexer.IndexerService.ProcessEventSafe` | veilend-backend/src/indexer/indexer.repository.ts:407-540 | The event is applied exactly when it is no duplicate, and reported so. |
| `Indexer.IndexerService.ProcessChunk` | veilend-backend/src/indexer/indexer.repository.ts:554-577 | The loop applies the events and the checkpoint, and its counts add up to the rows gained. |
| `Indexer.IndexerService.IndexEventsInChunks` | veilend-backend/src/indexer/indexer.service.ts:205-260 | The chunk loop writes the specified tables up to where it dies, and the counters follow. |

## Left out

- Interest.SupplierInterestBound: stated for non-negative totals; the code does not check their sign, and below zero the bound fails (`Overdraft.TotalBelowZero`).
- Interest.GrowthFitsI128: stated for a utilisation of at most 100%, which a negative total breaks (`Overdraft.TotalBelowZero`); `Interest.UtilizationWithinIff` says when it holds.
- Solvency.AggregatesEqualPositions: stated at zero interest rates, since with interest the truncated aggregates and positions drift apart in both directions (`Interest.TwoAccrualsCanOutgrowAggregate`, `Interest.AggregateCanOutgrowPositions`); `Interest.DriftAfterAccruals` bounds how far, between touches.
- Solvency.RewardsNeverExceedEmission: stated at zero interest rates for the same reason, and on the borrow side for assets never liquidated against themselves, without which it fails (`InPlace.InPlaceLiquidationOverpays`).
- Indexer.ExactlyOnce: covers transaction events. Interest, reserve and parameter events write no history row, so only the lookaside table, with its one-hour life, keeps them from being applied again; their table is not modelled.
- Overflow of i128, u64 and u32 outside the seize formula: the model's integers are unbounded, and a call that would overflow is assumed not to happen.
- Authentication, signatures, permit digests, nonces and epochs, and the permit variants of the four user operations, which repeat their bodies.
- Token transfers: the contract tracks balances internally, and the reward token's balance is an input.
- Events, contract metadata, schema migration, storage lifetimes and archived entries.
- The flash-loan receiver: its callback returns or the loan fails; the host forbids re-entry.
- The price setters, parameter setters and timelocked actions are modelled as functions only; the object form covers the user operations, batches, liquidation, write-off, flash loans, claims and vesting.
- The wasm swap behind an upgrade: only its version guard is modelled.
- Ledger runs do not check who calls the admin setters; governance does for the timelocked ones.
- Access-token expiry is rounded down to whole seconds by the JWT library; the model uses milliseconds.
- Database isolation: each Prisma call and each serializable transaction is one atomic step.
- Random identifiers are modelled as never colliding; user rows are never deleted.
- The legacy access-token path, audit logs and session listing.
- RPC fetching: a ledger range always yields the same events, and distinct events differ in id and in (hash, index). A fetch error that ends a page early, or a replay beyond the latest ledger, advances the checkpoint past events not yet seen; neither is modelled.
- `resetDatabase`, asset interest totals, user and asset row creation, and the estimated time of a replay.
- Withdrawal, deposit, portfolio, market and solvency services, the circuit breaker, caches, and the web and mobile apps.
