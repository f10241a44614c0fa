# The accounting of the RISE protocol, verified

RISE is a set of Solana programs: a liquid-staking pool (`rise-staking`), a collateralised debt
engine that mints the pool's token (`rise-cdp`), liquidity gauges (`rise-rewards`) and vote-escrow
locks with a revenue share (`rise-governance`). Their difficulty is integer accounting: floor
divisions, accumulators with floored debts, and counters that must equal sums over accounts that no
instruction ever iterates. This project models that accounting and proves what it keeps.

Every program appears twice. A module of *rules* (`Gauges`, `StakingPool`, `Governance`, `Cdp`) says,
per instruction, exactly when it goes through and what the accounts are afterwards; a refused
instruction changes nothing, and a run is any sequence of instructions. A module of *handlers*
(`GaugeProgram`, `StakingProgram`, `GovernanceProgram`, `CdpProgram`) is a class whose methods follow
the handlers' checked, saturating and casting arithmetic on the accounts' fields; `Execute` proves
that each transaction is exactly one step of the rules. Invariants over all runs are proved about the
rules, so they hold of the handlers.

- `Arithmetic`, `MapSums`: integer widths, checked operations, floor division; sums over account maps.
- `Accumulator`: the reward accumulator that gauges and borrow rewards share, solvent up to less than
  one base unit per change of weight.
- `Gauges`, `GaugeTheorems`, `GaugeProgram`: one LP gauge and the epoch counter; `GaugeSystem`: all gauges
  together, each of which runs as one alone does, and what an epoch costs in all.
- `StakingPool`, `StakingTheorems`, `StakingProgram`: the pool, its vault, the riseSOL mint, tickets.
- `Governance`, `GovernanceTheorems`, `GovernanceProgram`: veRISE locks, their NFTs and the treasury's revenue
  index.
- `Interest`, `Risk`, `Settlement`: borrow rate and accrual, loan-to-value and health, and the splits of
  repayments, liquidations and fees.
- `Cdp`, `CdpInvariants`, `CdpSteps`, `CdpCustody`, `CdpRewards`, `CdpTheorems`, `CdpInstances`, `CdpProgram`:
  the debt engine together with the pool and the treasury it calls, as one machine; `CdpInstances` holds
  the runs that show where a property stops.
- `GaugeAmounts`, `StakingAmounts`, `GovernanceAmounts`, `CdpAmounts`, `CdpClearingAmounts`,
  `CdpTreasuryAmounts`: per instruction, what it moves to the unit, with everything else unchanged, and
  exactly when it is refused. A quotient is given there as the one number `q` with `q * d <= n < q * d + d`
  (`IsFloor`), and constants are written out, so that no formula of the rules is taken on trust.

Some of the properties one would expect are false of the code. Each has an instance that fails and is
proved under its exact condition:

- reward solvency without slack: `ExactSolvencyFails`; a change of weight is free exactly when the new
  entitlement is rounded down by no more than the old one (`RestakeKeepsLiabilityIff`,
  `PositionKeepsLiabilityIff`), and runs of such changes need no slack (`GaugeSolvencyWithoutSlack`,
  `BorrowRewardSolvencyWithoutSlack`);
- revenue solvency under lock extensions: `UnsettledExtensionExceedsDistribution`, `ExtendKeepsLiabilityIff`;
- the return of an expired lock: its owner is refused after giving the lock's NFT away
  (`GivenAwayIsRefused`, `BurnedNftEndsTheLock`), and only then (`ExpiredLockIsReturned`);
- safe withdrawals at dust debts: `DustIsNotSafe`, `DustWithdrawalIsLiquidatable`, `WithdrawalsAreSafeIff`;
- collateral books under claims on ended positions: `EndedClaimIsMissing`, `EndedClaimEmptiesTheVault`,
  `ClaimKeepsCustodyIff`;
- an epoch that costs at most its emission: weights moved between two checkpoints of one epoch allocate it
  twice (`MovedWeightsOverspend`); what it will cost is known when they move (`EpochCosts`, `EpochBudget`);
- fee cuts that leave a remainder: `CutsAlwaysFitIff`.

Amounts are mathematical integers; 64- and 128-bit limits appear as aborts and casts as remainders.
Prices, swap outputs, clock readings, rent and the balances that signers pay from are parameters.
The clock is an argument of each instruction, not assumed to be monotone.

## Model

| member | source | states |
|---|---|---|
| `Accumulator.EarnedBounds` | programs/rise-rewards/src/instructions/deposit_lp.rs:13-28 | settling an account never underflows, and earns at most what was ever emitted |
| `Accumulator.SettledOwes` | programs/rise-rewards/src/instructions/deposit_lp.rs:41-53 | synchronising the debt favours an account by less than one base unit, and by nothing at an unchanged weight |
| `Accumulator.ReweighKeepsSound` | programs/rise-rewards/src/instructions/withdraw_lp.rs:13-56 | settle, change the weight, resynchronise: the book stays fair and solvent up to one more unit of slack |
| `Accumulator.ReweighChangesLiability` | programs/rise-rewards/src/instructions/deposit_lp.rs:41-53 | a change of weight changes the liability by exactly the difference of the two rounding remainders |
| `Accumulator.ReweighKeepsLiabilityIff` | programs/rise-rewards/src/instructions/withdraw_lp.rs:36-56 | so the liability does not grow if and only if the new entitlement is rounded down by no more than the old one was |
| `Accumulator.CollectIsExact` | programs/rise-rewards/src/instructions/claim_rewards.rs:10-46 | a claim at an unchanged weight moves exactly what it pays: the liability is the same before and after |
| `Accumulator.CollectKeepsSound` | programs/rise-rewards/src/instructions/claim_rewards.rs:10-46 | a claim keeps the book fair and solvent |
| `Accumulator.EvictLowersLiability` | programs/rise-rewards/src/instructions/force_withdraw_lp.rs:16-72 | closing an account at any payout up to what it has coming never raises the liability, without slack |
| `Accumulator.EvictKeepsSound` | programs/rise-rewards/src/instructions/force_withdraw_lp.rs:16-72 | closing an account against any payout up to what it has coming keeps the book sound |
| `Accumulator.EmitKeepsSound` | programs/rise-rewards/src/instructions/checkpoint_gauge.rs:51-67 | spreading an emission over the summed weights promises at most the emission |
| `Accumulator.EmitCosts` | programs/rise-rewards/src/instructions/checkpoint_gauge.rs:51-67 | an emission raises the liability by at most the emission, without slack |
| `Accumulator.PayoutsAreCovered` | programs/rise-rewards/src/instructions/checkpoint_gauge.rs:51-67 | everything ever paid is at most what was emitted plus one unit per change of weight |
| `GaugeTheorems.GaugeSolvency` | programs/rise-rewards/src/instructions/checkpoint_gauge.rs:51-67 | over every run: paid, pending and accrued rewards are covered by what was distributed plus less than one unit per accepted deposit or withdrawal; every accrual is non-negative; the LP total is the sum of the stakes |
| `GaugeTheorems.ExactSolvencyFails` | programs/rise-rewards/src/instructions/deposit_lp.rs:41-53 | without that slack the bound is false: on every new gauge emitting one unit per epoch a run pays 3 units after distributing 2 |
| `GaugeTheorems.RestakeKeepsLiabilityIff` | programs/rise-rewards/src/instructions/deposit_lp.rs:41-53 | a deposit or withdrawal leaves the liability no larger if and only if its new entitlement is rounded down by no more than the old one was |
| `GaugeTheorems.GaugeSolvencyWithDrift` | programs/rise-rewards/src/instructions/checkpoint_gauge.rs:51-67 | over every run, the exact cost of rounding: liability at most what was distributed plus the summed remainder differences of the accepted deposits and withdrawals |
| `GaugeTheorems.GaugeSolvencyWithoutSlack` | programs/rise-rewards/src/instructions/checkpoint_gauge.rs:51-67 | over every run whose deposits and withdrawals meet that remainder condition, solvency holds with no slack |
| `GaugeTheorems.ClaimIsConservative` | programs/rise-rewards/src/instructions/claim_rewards.rs:6-51 | a claim pays exactly what was pending, empties it, and leaves the liability unchanged |
| `GaugeTheorems.PendingNeverFalls` | programs/rise-rewards/src/instructions/withdraw_lp.rs:13-67 | nobody else reduces a staker's pending rewards, and its own deposits and withdrawals preserve them exactly |
| `GaugeTheorems.SettlementIsExact` | programs/rise-rewards/src/instructions/force_withdraw_lp.rs:16-40 | no settlement underflows or is narrowed, so the saturating forms agree with the checked ones |
| `GaugeTheorems.ExitIsOpen` | programs/rise-rewards/src/instructions/withdraw_lp.rs:6-73 | a full withdrawal is accepted if and only if the settlement itself fits its integer widths |
| `GaugeTheorems.EmissionsAgainstClock` | programs/rise-rewards/src/instructions/checkpoint_gauge.rs:10-49 | the epoch counter lags the clock; all allocations are distributed or pending, and at most the peak emission per whole epoch since creation |
| `GaugeTheorems.ChangesAreRestakes` | programs/rise-rewards/src/instructions/deposit_lp.rs:6-66 | the slack counts exactly the accepted deposits and withdrawals of the run |
| `Gauges.CreatedInv` | programs/rise-rewards/src/instructions/create_gauge.rs:5-26 | a new gauge satisfies the invariant |
| `Gauges.RestakedKeepsBacked` | programs/rise-rewards/src/instructions/deposit_lp.rs:41-60 | a deposit or withdrawal that moves stake, total and LP vault alike keeps the gauge backed |
| `Gauges.ClaimKeepsBacked` | programs/rise-rewards/src/instructions/claim_rewards.rs:6-51 | a claim keeps the gauge backed |
| `Gauges.ForceWithdrawKeepsBacked` | programs/rise-rewards/src/instructions/force_withdraw_lp.rs:9-82 | a forced exit, its payout capped at the vault, keeps the gauge backed |
| `Gauges.AllocatedKeepsBacked` | programs/rise-rewards/src/instructions/checkpoint_gauge.rs:38-73 | allocating an epoch, with or without stakers, keeps the gauge backed |
| `Gauges.AllocatedKeepsAllotted` | programs/rise-rewards/src/instructions/checkpoint_gauge.rs:21-49 | an epoch value is allocated at most once, and rolled-over emissions are not counted twice |
| `Gauges.AdvancedKeepsInv` | programs/rise-rewards/src/instructions/checkpoint_gauge.rs:10-19 | advancing the epoch keeps the counter on the schedule of the start slot |
| `Gauges.CheckpointKeepsInv` | programs/rise-rewards/src/instructions/checkpoint_gauge.rs:5-77 | a checkpoint keeps all invariants |
| `Gauges.ConfigKeepsInv` | programs/rise-rewards/src/instructions/set_gauge_weight.rs:8-13 | changing weight or emissions keeps all invariants |
| `Gauges.StepKeepsInv` | programs/rise-rewards/src/instructions/checkpoint_gauge.rs:5-77 | every instruction keeps the gauge invariant |
| `Gauges.RunKeepsInv` | programs/rise-rewards/src/instructions/checkpoint_gauge.rs:5-77 | every reachable state of a gauge is backed and on schedule |
| `GaugeAmounts.DepositMoves` | programs/rise-rewards/src/instructions/deposit_lp.rs:13-60 | the amount into stake, total and LP vault; the reward earned so far and the new debt by the inequalities of rounding down; nothing else |
| `GaugeAmounts.WithdrawalMoves` | programs/rise-rewards/src/instructions/withdraw_lp.rs:13-67 | the amount out of stake, total and LP vault, likewise; nothing else |
| `GaugeAmounts.ClaimPays` | programs/rise-rewards/src/instructions/claim_rewards.rs:10-46 | exactly the pending and the newly earned reward leaves the rewards vault; the stake and nothing else changes |
| `GaugeAmounts.ForcedExitPays` | programs/rise-rewards/src/instructions/force_withdraw_lp.rs:16-72 | the whole stake leaves the LP vault, and what is due, or the whole rewards vault if that is less, is paid |
| `GaugeAmounts.CheckpointAllocates` | programs/rise-rewards/src/instructions/checkpoint_gauge.rs:10-73 | one epoch further exactly when its slots have passed; the epoch's emission times the weight, rounded down, with the rollover, over the LP tokens or to the next epoch; nothing else |
| `GaugeAmounts.DepositIsAcceptedIff` | programs/rise-rewards/src/instructions/deposit_lp.rs:6-66 | accepted if and only if the gauge is active, the amount is at least 1,000 and held, and the widths fit |
| `GaugeAmounts.WithdrawalIsAcceptedIff` | programs/rise-rewards/src/instructions/withdraw_lp.rs:6-73 | accepted if and only if nothing or at least 1,000 is left and the settlement fits |
| `GaugeAmounts.PayoutsAreAcceptedIff` | programs/rise-rewards/src/instructions/claim_rewards.rs:26-46 | a claim is refused only without anything due, without the RISE to pay it or for a width; a forced exit only without a stake or for a width |
| `GaugeAmounts.CheckpointIsAcceptedIff` | programs/rise-rewards/src/instructions/checkpoint_gauge.rs:38-64 | a checkpoint is refused only for a width |
| `GaugeSystem.EachGaugeRuns` | programs/rise-rewards/src/instructions/checkpoint_gauge.rs:10-19 | all gauges together: every run of the system is, to each gauge, a run of that gauge, so each theorem about one gauge holds of it beside the others |
| `GaugeSystem.StepKeepsConsistent` | programs/rise-rewards/src/instructions/checkpoint_gauge.rs:10-19 | the gauges keep agreeing on emission, epoch counter and rewards vault, and each keeps its invariant |
| `GaugeSystem.AllocationsFit` | programs/rise-rewards/src/state.rs:12-13 | weights of at most 10,000 in all share out at most the emission |
| `GaugeSystem.EpochBudget` | programs/rise-rewards/src/state.rs:12-13 | at every moment of every run from new gauges whose changes of weights and emission are prudent, what the current epoch allocated to all gauges together is at most the emission |
| `GaugeSystem.EpochCosts` | programs/rise-rewards/src/instructions/set_gauge_weight.rs:5-10 | once every gauge was checkpointed the epoch has cost exactly what it claimed right after the last change, so it is within the emission if and only if that claim was |
| `GaugeSystem.PastEpochsStay` | programs/rise-rewards/src/instructions/checkpoint_gauge.rs:21-25 | what earlier epochs cost never changes, in any run |
| `GaugeSystem.MovedWeightsOverspend` | programs/rise-rewards/src/instructions/set_gauge_weight.rs:5-10 | prudence is needed: a run of two gauges whose weights sum to at most 10,000 at every moment and whose epoch allocates twice the emission |
| `GaugeProgram.Program.constructor` | programs/rise-rewards/src/instructions/create_gauge.rs:5-26 | a new gauge beside a new configuration is valid |
| `GaugeProgram.Program.Settle` | programs/rise-rewards/src/instructions/deposit_lp.rs:13-28 | the checked settlement succeeds exactly when its product and sum fit, and adds what was earned |
| `GaugeProgram.Program.Claimable` | programs/rise-rewards/src/instructions/claim_rewards.rs:10-24 | the saturating, casting settlement computes the same amount under the same conditions |
| `GaugeProgram.Program.DebtFor` | programs/rise-rewards/src/instructions/deposit_lp.rs:48-53 | the debt of an LP amount at the current rate, or overflow |
| `GaugeProgram.Program.DepositHandler` | programs/rise-rewards/src/instructions/deposit_lp.rs:6-66 | goes through exactly when the rules allow the deposit; the stake is settled and resynchronised for the larger amount |
| `GaugeProgram.Program.DepositLp` | programs/rise-rewards/src/instructions/deposit_lp.rs:6-66 | the whole new state of a deposit; a refused one changes nothing |
| `GaugeProgram.Program.WithdrawHandler` | programs/rise-rewards/src/instructions/withdraw_lp.rs:6-73 | goes through exactly when the rules allow the withdrawal, dust rule included; error codes |
| `GaugeProgram.Program.WithdrawLp` | programs/rise-rewards/src/instructions/withdraw_lp.rs:6-73 | the whole new state of a withdrawal; a refused one changes nothing |
| `GaugeProgram.Program.ClaimHandler` | programs/rise-rewards/src/instructions/claim_rewards.rs:6-51 | pays everything pending and resynchronises at the same stake, exactly when the rules allow it |
| `GaugeProgram.Program.ClaimRewards` | programs/rise-rewards/src/instructions/claim_rewards.rs:6-51 | the whole new state of a claim; a refused one changes nothing |
| `GaugeProgram.Program.ForceWithdrawHandler` | programs/rise-rewards/src/instructions/force_withdraw_lp.rs:9-82 | the payout is what is claimable, capped at the rewards vault |
| `GaugeProgram.Program.ForceWithdrawLp` | programs/rise-rewards/src/instructions/force_withdraw_lp.rs:9-82 | the whole new state of a forced exit; a refused one changes nothing |
| `GaugeProgram.Program.EpochHandler` | programs/rise-rewards/src/instructions/checkpoint_gauge.rs:10-19 | advances epoch and start slot by one exactly when an epoch has elapsed |
| `GaugeProgram.Program.AllocationHandler` | programs/rise-rewards/src/instructions/checkpoint_gauge.rs:27-71 | the emission times the weight, rounded down, plus the rollover; the new rate and total, or overflow |
| `GaugeProgram.Program.CheckpointGauge` | programs/rise-rewards/src/instructions/checkpoint_gauge.rs:5-77 | the whole new state of a checkpoint, a new epoch's allocation being its weight of the emission; a refused one changes nothing |
| `GaugeProgram.Program.CheckpointOtherGauge` | programs/rise-rewards/src/instructions/checkpoint_gauge.rs:10-25 | what a checkpoint of another gauge does to this one: the shared epoch advances |
| `GaugeProgram.Program.UpdateHandler` | programs/rise-cdp/src/instructions/update_collateral_config.rs:5-86 | each setting is left or replaced; an update is accepted if and only if valid terms stay valid, whatever is changed together |
| `GaugeProgram.Program.Configure` | programs/rise-rewards/src/instructions/set_epoch_emissions.rs:5-13 | weight and emission changes, with their checks |
| `GaugeProgram.Program.Execute` | programs/rise-rewards/src/instructions/checkpoint_gauge.rs:5-77 | one transaction is exactly one step of the rules and keeps the gauge valid |
| `StakingPool.GenesisInv` | programs/rise-staking/src/instructions/initialize_pool.rs:6-40 | a new pool satisfies the invariant |
| `StakingPool.StakedKeepsBacked` | programs/rise-staking/src/instructions/stake_sol.rs:45-85 | minting at the floored rate keeps riseSOL backed |
| `StakingPool.PartIsBacked` | programs/rise-staking/src/instructions/unstake_rise_sol.rs:33-66 | any part of the supply is worth at most its part of the staked SOL, and what is left stays backed |
| `StakingPool.UnstakedKeepsInv` | programs/rise-staking/src/instructions/unstake_rise_sol.rs:33-85 | burning and queueing a ticket keeps the chain and the ticket sum |
| `StakingPool.RedeemedKeepsInv` | programs/rise-staking/src/instructions/claim_unstake.rs:14-46 | a redeemed ticket was covered by the pending total; the chain stays |
| `StakingPool.CreditedKeepsBacked` | programs/rise-staking/src/instructions/credit_staking_revenue.rs:38-55 | recomputing the rate by floor division after a credit never lowers it and keeps it backed |
| `StakingPool.RateUpdatedKeepsBacked` | programs/rise-staking/src/instructions/update_exchange_rate.rs:9-78 | crediting rewards net of the fee keeps the chain and never lowers the rate |
| `StakingPool.BurnedKeepsBacked` | programs/rise-staking/src/instructions/notify_rise_sol_burned.rs:18-32 | taking burned interest off the supply keeps riseSOL backed |
| `StakingPool.StepKeepsInv` | programs/rise-staking/src/instructions/unstake_rise_sol.rs:33-85 | every instruction keeps the backing chain, the ticket sum and the rate's floor |
| `StakingPool.RunKeepsInv` | programs/rise-staking/src/instructions/update_exchange_rate.rs:59-70 | every reachable pool is backed, and the exchange rate never falls in any run |
| `StakingTheorems.BackingChain` | programs/rise-staking/src/instructions/update_exchange_rate.rs:18-70 | from a new pool on: rate times supply <= staked SOL <= liquid buffer, buffer plus pending <= vault, pending = sum of tickets |
| `StakingTheorems.UnstakeGoesThrough` | programs/rise-staking/src/instructions/unstake_rise_sol.rs:8-95 | an unstake is accepted if and only if the request itself is sound: pool accounting never refuses it |
| `StakingTheorems.TicketSurvives` | programs/rise-staking/src/instructions/claim_unstake.rs:11-51 | over any run, nothing but its own redemption touches a ticket, and nothing pauses the pool |
| `StakingTheorems.RedemptionPaysTheLockedAmount` | programs/rise-staking/src/instructions/claim_unstake.rs:14-46 | a ticket pays exactly the value locked when it was bought, from two epochs later on, whatever others do meanwhile |
| `StakingTheorems.StakeUnstakeRoundTrip` | programs/rise-staking/src/state.rs:150-162 | unstaking at once what a stake added to both supplies returns at most the stake and at least the stake less rate/RATE_SCALE + 1 |
| `StakingTheorems.SweepLeavesWhatIsOwed` | programs/rise-staking/src/instructions/collect_fees.rs:26-60 | sweeping the excess leaves exactly buffer plus tickets, and changes nothing else |
| `StakingTheorems.TransferredRevenueIsCredited` | programs/rise-staking/src/instructions/credit_staking_revenue.rs:23-55 | revenue transferred in is always accepted by the credit that follows |
| `StakingAmounts.StakeMints` | programs/rise-staking/src/instructions/stake_sol.rs:17-85 | the riseSOL minted is the stake at the rate, rounded down, into both supplies; the SOL into total, buffer and vault; nothing else |
| `StakingAmounts.StakeIsAcceptedIff` | programs/rise-staking/src/instructions/stake_sol.rs:7-20 | refused only when paused, empty, not held, too small for one unit, or for a width |
| `StakingAmounts.UnstakeQueues` | programs/rise-staking/src/instructions/unstake_rise_sol.rs:33-85 | the value of what is burned, rounded down, moves from buffer and total to pending and to a ticket due two epochs later; nothing else |
| `StakingAmounts.UnstakeIsAcceptedIff` | programs/rise-staking/src/instructions/unstake_rise_sol.rs:8-40 | in a backed pool: the tokens are held and staked, worth a lamport, and the counters have room |
| `StakingAmounts.RedemptionPays` | programs/rise-staking/src/instructions/claim_unstake.rs:11-46 | a ticket is accepted exactly from its epoch on and unpaused, and takes what it says out of pending and vault |
| `StakingAmounts.CreditBooks` | programs/rise-staking/src/instructions/credit_staking_revenue.rs:20-55 | accepted exactly for a positive amount that is in the vault and not booked; booked in full, the rate being staked SOL per unit of supply, rounded down |
| `StakingAmounts.UpdateBooksAllButTheFee` | programs/rise-staking/src/instructions/update_exchange_rate.rs:18-70 | after an update in a new epoch what is not booked is exactly the fee on what was not, rounded down; total and buffer rise by the rest, and the rate is the price then |
| `StakingAmounts.UpdateThenSweep` | programs/rise-staking/src/instructions/update_exchange_rate.rs:37-57 | an update and a sweep after it divide what was not booked into credit and fee exactly |
| `StakingProgram.Program.constructor` | programs/rise-staking/src/instructions/initialize_pool.rs:6-40 | a new pool is valid |
| `StakingProgram.Program.StakeHandler` | programs/rise-staking/src/instructions/stake_sol.rs:7-92 | mints at the current rate exactly when the rules allow it; in a backed pool no 128-bit step aborts |
| `StakingProgram.Program.StakeSol` | programs/rise-staking/src/instructions/stake_sol.rs:7-92 | the whole new state of a stake |
| `StakingProgram.Program.UnstakeHandler` | programs/rise-staking/src/instructions/unstake_rise_sol.rs:8-95 | the moves between supply, staked, liquid and pending, and the ticket, exactly when allowed |
| `StakingProgram.Program.UnstakeRiseSol` | programs/rise-staking/src/instructions/unstake_rise_sol.rs:8-95 | the whole new state of an unstake |
| `StakingProgram.Program.ClaimUnstake` | programs/rise-staking/src/instructions/claim_unstake.rs:11-51 | the whole new state of a redemption |
| `StakingProgram.Program.Recomputed` | programs/rise-staking/src/instructions/credit_staking_revenue.rs:48-55 | the rate recomputed by floor division, unchanged without supply |
| `StakingProgram.Program.UpdateRateHandler` | programs/rise-staking/src/instructions/update_exchange_rate.rs:18-70 | what is not credited is exactly the fee on the excess, rounded down; no step aborts in a backed pool |
| `StakingProgram.Program.UpdateExchangeRate` | programs/rise-staking/src/instructions/update_exchange_rate.rs:9-78 | the whole new state of a rate update, once per epoch; what stays unbooked is exactly the fee |
| `StakingProgram.Program.CheckArrived` | programs/rise-staking/src/instructions/receive_cdp_liquidity.rs:11-30 | accepts exactly a positive amount that is in the vault and not accounted for |
| `StakingProgram.Program.CreditStakingRevenue` | programs/rise-staking/src/instructions/credit_staking_revenue.rs:20-62 | the whole new state of a credit |
| `StakingProgram.Program.ReceiveCdpLiquidity` | programs/rise-staking/src/instructions/receive_cdp_liquidity.rs:11-39 | the whole new state of a buffer top-up |
| `StakingProgram.Program.Sweep` | programs/rise-staking/src/instructions/collect_fees.rs:23-41 | the excess above buffer and tickets leaves the vault |
| `StakingProgram.Program.MintForCdp` | programs/rise-staking/src/instructions/mint_for_cdp.rs:14-35 | mints without touching the staking supply |
| `StakingProgram.Program.NotifyRiseSolBurned` | programs/rise-staking/src/instructions/notify_rise_sol_burned.rs:18-32 | reduces the staking supply, or fails |
| `StakingProgram.Program.Execute` | programs/rise-staking/src/instructions/unstake_rise_sol.rs:8-95 | one transaction is exactly one step of the rules, keeps the pool backed and the rate from falling |
| `Governance.StepKeepsCounted` | programs/rise-governance/src/instructions/unlock_rise.rs:7-74 | total_verise stays the sum of the locks, their RISE stays in the vault, the distributed total stays in vault and claims |
| `Governance.StepKeepsSized` | programs/rise-staking/src/instructions/register_external_revenue.rs:18-73 | the fields keep their integer widths |
| `Governance.ExtendChangesLiability` | programs/rise-governance/src/instructions/extend_lock.rs:26-41 | an extension changes the liability by the change of weight times the unsettled index difference |
| `Governance.ExtendKeepsLiabilityIff` | programs/rise-governance/src/instructions/extend_lock.rs:26-41 | the liability does not grow if and only if the lock is settled to the current index or gains no weight |
| `Governance.LockKeepsLiability` | programs/rise-governance/src/instructions/lock_rise.rs:123-139 | a new lock is owed nothing |
| `Governance.ClaimKeepsLiability` | programs/rise-governance/src/instructions/claim_revenue_share.rs:14-62 | a claim pays out no more than it takes off the lock |
| `Governance.UnlockKeepsLiability` | programs/rise-governance/src/instructions/unlock_rise.rs:7-74 | removing a lock removes only what it was owed |
| `Governance.DistributeKeepsSolvent` | programs/rise-staking/src/instructions/register_external_revenue.rs:25-55 | raising the index promises at most what was distributed |
| `Governance.StepKeepsSolvent` | programs/rise-governance/src/instructions/claim_revenue_share.rs:14-62 | every harmless step keeps the revenue solvent |
| `Governance.StepKeepsReserve` | programs/rise-staking/src/instructions/withdraw_treasury_for_cdp_buyback.rs:18-49 | the reserve counter follows its vault, so a buyback's saturating subtraction never saturates |
| `GovernanceTheorems.RunKeepsCounted` | programs/rise-governance/src/instructions/lock_rise.rs:11-148 | the veRISE total is the sum of the locks in every run |
| `GovernanceTheorems.RunKeepsSolvent` | programs/rise-governance/src/instructions/claim_revenue_share.rs:14-62 | solvency over every run whose extensions are harmless |
| `GovernanceTheorems.RevenueSolvency` | programs/rise-governance/src/instructions/claim_revenue_share.rs:14-62 | from genesis, without rounding slack: claimed and claimable revenue is covered by what was distributed |
| `GovernanceTheorems.UnsettledExtensionExceedsDistribution` | programs/rise-governance/src/instructions/extend_lock.rs:38-41 | three instructions after which an unsettled extension leaves more promised than was distributed |
| `GovernanceTheorems.DueIsFunded` | programs/rise-governance/src/instructions/claim_revenue_share.rs:24-43 | the veRISE vault holds what every lock has due |
| `GovernanceTheorems.ClaimsAreFunded` | programs/rise-governance/src/instructions/claim_revenue_share.rs:6-68 | a claim of a live lock is accepted exactly when something is due and the widths fit, and is paid in full |
| `GovernanceTheorems.ExpiredLockIsReturned` | programs/rise-governance/src/instructions/unlock_rise.rs:7-134 | an unlock is accepted if and only if the lock has ended and its owner holds its NFT, and returns the RISE |
| `GovernanceTheorems.LockIsReturnedToItsHolder` | programs/rise-governance/src/instructions/unlock_rise.rs:124-131 | over every run that leaves the NFT where it is: an owner holding it gets the RISE back from the end on, one who gave it away is refused at every slot |
| `GovernanceTheorems.BurnedNftEndsTheLock` | programs/rise-governance/src/instructions/unlock_rise.rs:19-29 | once the NFT is burned, no run ever returns the lock's RISE |
| `GovernanceTheorems.GivenAwayIsRefused` | programs/rise-governance/src/instructions/unlock_rise.rs:124-131 | a run from genesis to an ended lock whose owner gave its NFT away and is refused |
| `GovernanceTheorems.VeriseNeverExceedsRise` | programs/rise-governance/src/state.rs:39-46 | a lock is worth at most its RISE, and all of it if and only if it lasts the full four years |
| `GovernanceTheorems.VotingWeightDecays` | programs/rise-governance/src/state.rs:67-82 | voting weight never grows, is positive exactly until the end and at most the lock's veRISE |
| `GovernanceAmounts.LockRecords` | programs/rise-governance/src/instructions/lock_rise.rs:29-139 | the lock's veRISE is its RISE times its part of four years, rounded down; its slots, index and NFT, the total and the vault; nothing else |
| `GovernanceAmounts.LockIsAcceptedIff` | programs/rise-governance/src/instructions/lock_rise.rs:23-33 | accepted if and only if amount and time are within bounds, the lock is worth a unit of veRISE, and the widths fit |
| `GovernanceAmounts.ExtensionReweighs` | programs/rise-governance/src/instructions/extend_lock.rs:26-41 | the veRISE is computed anew for the time then left, from now on; end, start and total follow, the index does not |
| `GovernanceAmounts.ExtensionIsAcceptedIff` | programs/rise-governance/src/instructions/extend_lock.rs:5-41 | accepted if and only if the lock is live and the time then left is within the maximum, and the widths fit |
| `GovernanceAmounts.UnlockReturns` | programs/rise-governance/src/instructions/unlock_rise.rs:16-66 | the RISE leaves the vault, the veRISE the total, lock and NFT end; nothing else |
| `GovernanceAmounts.ClaimPays` | programs/rise-governance/src/instructions/claim_revenue_share.rs:14-62 | the payout is weight times index difference, rounded down; the lock is settled to the index |
| `GovernanceAmounts.ClaimIsAcceptedIff` | programs/rise-governance/src/instructions/claim_revenue_share.rs:6-44 | a live lock is refused only if nothing is due or for a width |
| `GovernanceAmounts.DistributionRaises` | programs/rise-staking/src/instructions/register_external_revenue.rs:25-70 | the index rises by the revenue per unit of veRISE, rounded down; vaults and counters by what came in |
| `GovernanceAmounts.SpendingLowers` | programs/rise-staking/src/instructions/withdraw_treasury_for_cdp_buyback.rs:18-49 | accepted exactly while lamports and rent are in the vault; both vault and counter fall by the lamports |
| `GovernanceAmounts.WeightIsShare` | programs/rise-governance/src/state.rs:67-82 | the weight is the veRISE times the part of the time left, rounded down, and one where that is zero |
| `GovernanceProgram.Program.constructor` | programs/rise-governance/src/instructions/initialize_governance.rs:6-41 | a new configuration and treasury are valid and solvent |
| `GovernanceProgram.Program.Verise` | programs/rise-governance/src/state.rs:39-46 | the veRISE of an amount and a duration, or overflow |
| `GovernanceProgram.Program.Weight` | programs/rise-governance/src/state.rs:67-82 | positive exactly before the end, at most the larger of veRISE and one, and the floored remaining share of the veRISE wherever that share is at least one |
| `GovernanceProgram.Program.LockHandler` | programs/rise-governance/src/instructions/lock_rise.rs:11-148 | goes through exactly when the rules allow the lock; error codes for too short and too long |
| `GovernanceProgram.Program.LockRise` | programs/rise-governance/src/instructions/lock_rise.rs:11-148 | the whole new state of a lock |
| `GovernanceProgram.Program.ExtendHandler` | programs/rise-governance/src/instructions/extend_lock.rs:5-49 | re-weights for the new remaining time and leaves the revenue index alone |
| `GovernanceProgram.Program.ExtendLock` | programs/rise-governance/src/instructions/extend_lock.rs:5-49 | the whole new state of an extension |
| `GovernanceProgram.Program.UnlockRise` | programs/rise-governance/src/instructions/unlock_rise.rs:7-74 | the whole new state of an unlock |
| `GovernanceProgram.Program.ClaimHandler` | programs/rise-governance/src/instructions/claim_revenue_share.rs:6-68 | the payout by index difference, exactly when the rules allow it |
| `GovernanceProgram.Program.ClaimRevenueShare` | programs/rise-governance/src/instructions/claim_revenue_share.rs:6-68 | the whole new state of a claim |
| `GovernanceProgram.Program.RegisterHandler` | programs/rise-staking/src/instructions/register_external_revenue.rs:18-73 | the new index, total and reserve, or overflow |
| `GovernanceProgram.Program.Distribute` | programs/rise-staking/src/instructions/register_external_revenue.rs:18-73 | the whole new state of a distribution |
| `GovernanceProgram.Program.SpendReserve` | programs/rise-staking/src/instructions/withdraw_treasury_for_cdp_buyback.rs:18-49 | the whole new state of a buyback withdrawal |
| `GovernanceProgram.Program.Execute` | programs/rise-governance/src/instructions/claim_revenue_share.rs:6-68 | one transaction is exactly one step of the rules; counters always agree, and harmless steps stay solvent |
| `Interest.RateBand` | programs/rise-cdp/src/instructions/accrue_interest.rs:48-84 | the rate lies between base and base + both slopes, meets itself at the kink, and the range it divides by is never zero |
| `Interest.RateMonotone` | programs/rise-cdp/src/instructions/accrue_interest.rs:48-84 | the rate never falls as utilization grows |
| `Interest.CeilingIs` | programs/rise-cdp/src/instructions/accrue_interest.rs:28-32 | the ceiling is the staking supply times the multiplier, rounded down |
| `Interest.UtilizationIs` | programs/rise-cdp/src/instructions/accrue_interest.rs:34-43 | utilization is debt per ceiling in basis points, rounded down, and full from the ceiling on or without one |
| `Interest.RateIs` | programs/rise-cdp/src/instructions/accrue_interest.rs:48-84 | linear interpolation on both sides of the kink, each rounded down |
| `Interest.InterestIs` | programs/rise-cdp/src/instructions/accrue_interest.rs:86-96 | the two divisions round down once: principal times rate times slots over 10,000 years of 78,840,000 slots |
| `Interest.YearOfInterest` | programs/rise-cdp/src/instructions/accrue_interest.rs:86-96 | a year costs exactly the rate in basis points of the principal, rounded down |
| `Interest.CrankCharges` | programs/rise-cdp/src/instructions/accrue_interest.rs:86-105 | the crank adds exactly that interest and always moves the slot |
| `Interest.AccrualCharges` | programs/rise-cdp/src/instructions/repay_debt.rs:85-103 | the lazy form adds the same, and moves the slot only together with a charge |
| `Interest.InterestGrowsWithDebt` | programs/rise-cdp/src/instructions/accrue_interest.rs:28-94 | at a fixed ceiling, more minted debt never makes a loan cheaper |
| `Interest.InterestSplits` | programs/rise-cdp/src/instructions/accrue_interest.rs:86-94 | accruing a span in two parts loses at most one unit and gains none |
| `Interest.CrankAgainstSingle` | programs/rise-cdp/src/instructions/accrue_interest.rs:86-105 | the crank against one accrual over the whole span: it loses less than one unit per call after the first |
| `Interest.LazyAgainstSingle` | programs/rise-cdp/src/instructions/repay_debt.rs:85-103 | the lazy accrual against one over the whole span: it loses at most one unit per call that advances |
| `Interest.CrankAgainstLazy` | programs/rise-cdp/src/instructions/accrue_interest.rs:86-105 | the crank never accrues more than the lazy form |
| `Interest.AccrualAgainstSingle` | programs/rise-cdp/src/instructions/accrue_interest.rs:86-105 | crank <= lazy <= single over any rising slots, with both loss bounds |
| `Interest.AccrualAgainstTime` | programs/rise-cdp/src/instructions/accrue_interest.rs:86-105 | both forms against the exact interest of the span, over any rising slots: never above it, and below it by less than one unit per call, or one more than the advancing calls |
| `Risk.LiquidatableIff` | programs/rise-cdp/src/state.rs:351-365 | the floored health factor decides exactly the comparison of weighted collateral with the debt |
| `Risk.WithinLtvIsHealthy` | programs/rise-cdp/src/instructions/liquidate.rs:39-63 | a debt within the maximum loan-to-value is not liquidatable |
| `Risk.OpeningIsWithinLtv` | programs/rise-cdp/src/instructions/open_position.rs:37-62 | the lamport limit of an opening implies the USD limit |
| `Risk.RateOverstatesDebt` | programs/rise-cdp/src/instructions/borrow_more.rs:150-169 | valuing debt through a rate of at least one never understates it |
| `Risk.WithdrawalLeavesMargin` | programs/rise-cdp/src/instructions/withdraw_excess.rs:113-203 | a debt of at least 7 micro-USD is not liquidatable after a withdrawal, despite five floors |
| `Risk.DustIsNotSafe` | programs/rise-cdp/src/instructions/withdraw_excess.rs:113-154 | a debt of 1 to 6 micro-USD can be left liquidatable: concrete limits and amounts |
| `Risk.WithdrawalsAreSafeIff` | programs/rise-cdp/src/instructions/withdraw_excess.rs:113-203 | withdrawals at a debt value are always safe if and only if it is zero or at least 7 micro-USD |
| `Settlement.WaterfallConserves` | programs/rise-cdp/src/instructions/repay_debt.rs:138-171 | interest clears before principal; what is routed is the value of what was cleared, at most the payment |
| `Settlement.PayoffCloses` | programs/rise-cdp/src/instructions/repay_debt.rs:124-141 | a payment closes a debt if and only if it is at least the debt's value rounded up |
| `Settlement.RoutingConserves` | programs/rise-cdp/src/instructions/repay_debt.rs:189-217 | interest, pool and diversion are exactly the value of what was cleared, at most the payment |
| `Settlement.DivertedIsBounded` | programs/rise-cdp/src/instructions/repay_debt.rs:189-217 | nothing is diverted without a shortfall, never more than the principal paid; the cast loses nothing below 2^64 lamports |
| `Settlement.RefundIsCovered` | programs/rise-cdp/src/instructions/liquidate.rs:65-73 | the refund is at most the collateral, and the swapped rest is worth the debt whenever the collateral was |
| `Settlement.Proportion` | programs/rise-cdp/src/instructions/liquidate.rs:157-171 | a proportional part is at most the whole |
| `Settlement.ProceedsConserve` | programs/rise-cdp/src/instructions/liquidate.rs:147-172 | trigger fee, interest and principal are exactly the swap's output; interest is its proportion, rounded for the principal |
| `Settlement.CdpFeesConserve` | programs/rise-cdp/src/instructions/collect_cdp_fees.rs:26-48 | the split loses nothing; veRISE and reserve get halves of a tenth rounded up |
| `Settlement.CutsFit` | programs/rise-staking/src/instructions/collect_fees.rs:45-60 | cuts of at most the whole leave a remainder |
| `Settlement.CutsAlwaysFitIff` | programs/rise-staking/src/state.rs:239-252 | every collection leaves a remainder if and only if the two shares add up to at most the whole |
| `CdpInvariants.InitialInv` | programs/rise-cdp/src/instructions/initialize_borrow_rewards.rs:6-33 | the initialised programs satisfy all invariants |
| `CdpInvariants.PrincipalIsCounted` | programs/rise-cdp/src/instructions/repay_debt.rs:173-180 | no counter is below the debt of a position, so subtracting it never saturates |
| `CdpInvariants.SettlementIsFair` | programs/rise-cdp/src/state.rs:90-107 | a settlement never underflows and earns at most what was emitted |
| `CdpInvariants.SettledKeepsBooked` | programs/rise-cdp/src/state.rs:90-116 | settling and changing a principal keeps the three debt counters equal and the rewards solvent |
| `CdpSteps.OpenKeepsInv` | programs/rise-cdp/src/instructions/open_position.rs:9-187 | opening keeps every invariant across both programs |
| `CdpSteps.BorrowKeepsInv` | programs/rise-cdp/src/instructions/borrow_more.rs:110-268 | borrowing more keeps every invariant |
| `CdpSteps.AddKeepsInv` | programs/rise-cdp/src/instructions/add_collateral.rs:8-74 | adding collateral keeps every invariant |
| `CdpSteps.WithdrawKeepsInv` | programs/rise-cdp/src/instructions/withdraw_excess.rs:8-208 | withdrawing collateral keeps every invariant |
| `CdpSteps.CrankKeepsInv` | programs/rise-cdp/src/instructions/accrue_interest.rs:6-113 | the crank keeps every invariant |
| `CdpSteps.ClearedKeepsInv` | programs/rise-cdp/src/instructions/repay_debt.rs:114-186 | clearing debt with SOL keeps every invariant |
| `CdpSteps.RepayKeepsInv` | programs/rise-cdp/src/instructions/repay_debt.rs:260-328 | repaying in SOL keeps every invariant |
| `CdpSteps.RepaySplKeepsInv` | programs/rise-cdp/src/instructions/repay_debt_spl.rs:53-166 | repaying in a swapped token keeps every invariant |
| `CdpSteps.RepayRiseSolKeepsInv` | programs/rise-cdp/src/instructions/repay_debt_rise_sol.rs:110-237 | repaying by burning keeps every invariant, the supply identity included |
| `CdpSteps.CloseKeepsInv` | programs/rise-cdp/src/instructions/close_position.rs:9-124 | closing keeps every invariant |
| `CdpSteps.LiquidateKeepsInv` | programs/rise-cdp/src/instructions/liquidate.rs:21-266 | liquidating keeps every invariant |
| `CdpSteps.ClaimKeepsInv` | programs/rise-cdp/src/instructions/claim_collateral.rs:81-206 | claiming collateral keeps every invariant |
| `CdpSteps.SeizeKeepsInv` | programs/rise-cdp/src/instructions/redeem_collateral_for_liquidity.rs:23-164 | seizing collateral keeps every invariant |
| `CdpSteps.ScheduleAdvances` | programs/rise-cdp/src/instructions/checkpoint_borrow_rewards.rs:32-54 | flooring each checkpoint's emission keeps the sum below the schedule |
| `CdpSteps.CheckpointKeepsInv` | programs/rise-cdp/src/instructions/checkpoint_borrow_rewards.rs:13-57 | a checkpoint keeps rewards solvent and on schedule |
| `CdpSteps.RewardsClaimKeepsInv` | programs/rise-cdp/src/instructions/claim_borrow_rewards.rs:10-52 | a rewards claim keeps every invariant |
| `CdpSteps.CreditKeepsInv` | programs/rise-staking/src/instructions/credit_staking_revenue.rs:20-62 | the fee credit keeps the pool backed and its rate from falling |
| `CdpSteps.CdpFeesKeepInv` | programs/rise-cdp/src/instructions/collect_cdp_fees.rs:15-143 | sweeping the CDP fees keeps every invariant |
| `CdpSteps.CollectFeesKeepInv` | programs/rise-staking/src/instructions/collect_fees.rs:15-154 | sweeping the pool's fees keeps every invariant |
| `CdpSteps.PoolCallKeepsInv` | programs/rise-staking/src/instructions/stake_sol.rs:61-85 | staking and unstaking keep the supply identity |
| `CdpSteps.StepKeepsInv` | programs/rise-cdp/src/instructions/repay_debt.rs:260-328 | every instruction of the joint machine keeps every invariant |
| `CdpSteps.RunKeepsInv` | programs/rise-cdp/src/instructions/repay_debt.rs:260-328 | every reachable joint state, over every interleaving |
| `CdpCustody.HoldingIsEntitled` | programs/rise-cdp/src/instructions/withdraw_excess.rs:184-189 | the entitlement counter is never below what a position holds, so subtracting it never saturates |
| `CdpCustody.OpenKeepsCustody` | programs/rise-cdp/src/instructions/open_position.rs:94-111 | opening keeps every mint's books |
| `CdpCustody.AddKeepsCustody` | programs/rise-cdp/src/instructions/add_collateral.rs:14-41 | adding collateral keeps every mint's books |
| `CdpCustody.WithdrawKeepsCustody` | programs/rise-cdp/src/instructions/withdraw_excess.rs:163-189 | withdrawing keeps every mint's books |
| `CdpCustody.CloseKeepsCustody` | programs/rise-cdp/src/instructions/close_position.rs:58-117 | closing keeps every mint's books |
| `CdpCustody.LiquidateKeepsCustody` | programs/rise-cdp/src/instructions/liquidate.rs:100-145 | liquidating keeps every mint's books |
| `CdpCustody.RedeemKeepsCustody` | programs/rise-cdp/src/instructions/redeem_collateral_for_liquidity.rs:64-97 | seizing moves tokens from vault to seized and leaves entitlements alone |
| `CdpCustody.ClaimKeepsCustody` | programs/rise-cdp/src/instructions/claim_collateral.rs:87-117 | a claim on a repaid position settles vault, entitlement and shortfall together |
| `CdpCustody.ClaimKeepsCustodyIff` | programs/rise-cdp/src/instructions/claim_collateral.rs:87-117 | a claim keeps the books if and only if the position was repaid or records no collateral |
| `CdpCustody.EndedClaimIsMissing` | programs/rise-cdp/src/instructions/claim_collateral.rs:87-117 | any claim on an ended position whose recorded collateral the vault holds is accepted, takes that collateral although nothing is held for it, and breaks the books |
| `CdpInstances.EndedClaimEmptiesTheVault` | programs/rise-cdp/src/instructions/claim_collateral.rs:81-206 | for any two borrowers a run from a new engine (open, open, close, claim) whose last step pays the first one out of the second one's collateral |
| `CdpInstances.DustWithdrawalIsLiquidatable` | programs/rise-cdp/src/instructions/withdraw_excess.rs:113-203 | for every debt of 1 to 6 micro-USD a run to a position whose withdrawal is accepted and which can be liquidated straight after at the same prices |
| `CdpCustody.StepKeepsCustody` | programs/rise-cdp/src/instructions/claim_collateral.rs:87-117 | every regular step keeps every mint's books |
| `CdpCustody.RunKeepsCustody` | programs/rise-cdp/src/instructions/claim_collateral.rs:87-117 | every regular run keeps every mint's books |
| `CdpAmounts.LoanAtIsCharged` | programs/rise-cdp/src/instructions/borrow_more.rs:18-108 | the loan every handler works on: charged by the interest at the rate that debt, staking supply and curve give, all by inequalities |
| `CdpAmounts.CrankMoves` | programs/rise-cdp/src/instructions/accrue_interest.rs:6-113 | the crank charges exactly that, moves the slot, and changes nothing else |
| `CdpAmounts.AccrualIsAcceptedIff` | programs/rise-cdp/src/instructions/accrue_interest.rs:86-105 | interest is refused only for its product and its sum |
| `CdpAmounts.LendingLimits` | programs/rise-cdp/src/instructions/open_position.rs:65-91 | new debt is within the ceiling, one loan within its twentieth, by inequalities |
| `CdpAmounts.OpeningMoves` | programs/rise-cdp/src/instructions/open_position.rs:94-187 | tokens into vault and entitlements, debt into supply and both counters; nothing else |
| `CdpAmounts.OpenedIs` | programs/rise-cdp/src/instructions/open_position.rs:37-62 | the position's value, health and reward debt, by inequalities |
| `CdpAmounts.OpeningIsAcceptedIff` | programs/rise-cdp/src/instructions/open_position.rs:9-91 | accepted if and only if the debt is within the maximum loan-to-value, the ceiling and its twentieth, the tokens are held and taken, and the widths fit |
| `CdpAmounts.BorrowingMoves` | programs/rise-cdp/src/instructions/borrow_more.rs:204-268 | debt into supply and both counters; nothing else |
| `CdpAmounts.BorrowedIs` | programs/rise-cdp/src/instructions/borrow_more.rs:139-242 | the position owes the amount on top, settled for it, its value and health by inequalities, its whole debt at the exchange rate within the maximum loan-to-value |
| `CdpAmounts.BorrowedWithinLtv` | programs/rise-cdp/src/instructions/borrow_more.rs:171-178 | so the debt in micro-USD is at most the recorded value times the maximum loan-to-value |
| `CdpAmounts.BorrowingIsAcceptedIff` | programs/rise-cdp/src/instructions/borrow_more.rs:110-202 | accepted if and only if that holds with the new debt, ceiling and twentieth are kept, and the widths fit |
| `CdpAmounts.AddingMoves` | programs/rise-cdp/src/instructions/add_collateral.rs:14-67 | tokens into vault, entitlements and position; value and health by inequalities; nothing else |
| `CdpAmounts.AddingIsAcceptedIff` | programs/rise-cdp/src/instructions/add_collateral.rs:8-67 | tokens that are held may be added to any open position, whatever its health and whether or not its mint is active |
| `CdpAmounts.WithdrawalMoves` | programs/rise-cdp/src/instructions/withdraw_excess.rs:157-203 | tokens out of vault, entitlements and position, interest charged; value and health by inequalities |
| `CdpAmounts.WithdrawalIsAcceptedIff` | programs/rise-cdp/src/instructions/withdraw_excess.rs:113-165 | accepted if and only if the tokens are worth at most what the collateral is worth above the debt at four fifths of the maximum loan-to-value, the vault has them, and the widths fit |
| `CdpAmounts.UpdateSets` | programs/rise-cdp/src/instructions/update_collateral_config.rs:5-86 | an update sets exactly the terms it names |
| `CdpClearingAmounts.ClearingIs` | programs/rise-cdp/src/instructions/repay_debt.rs:124-171 | what a payment clears, interest first, and the SOL for either, by inequalities |
| `CdpClearingAmounts.DiversionIs` | programs/rise-cdp/src/instructions/repay_debt.rs:189-217 | what is set aside: the cost of the missing tokens as far as the principal's SOL goes, once the debt is gone, and nothing otherwise |
| `CdpClearingAmounts.RepaymentMoves` | programs/rise-cdp/src/instructions/repay_debt.rs:219-328 | interest to the fee vault, principal to the pool but for what is set aside, cleared principal off both counters; the position settled and, without debt, awaiting its claim; nothing else |
| `CdpClearingAmounts.ClearingIsAcceptedIff` | programs/rise-cdp/src/instructions/repay_debt.rs:115-141 | a payment clears unless it is worth less than a unit, nothing is owed, or a width does not fit |
| `CdpClearingAmounts.RepaymentIsAcceptedIff` | programs/rise-cdp/src/instructions/repay_debt.rs:260-328 | then refused only if the value of what it clears is not held or does not fit the vaults |
| `CdpClearingAmounts.BurningMoves` | programs/rise-cdp/src/instructions/repay_debt_rise_sol.rs:132-237 | all that is cleared off the token supply, interest off the staking supply, principal off both counters; no SOL moves |
| `CdpClearingAmounts.BurningIsAcceptedIff` | programs/rise-cdp/src/instructions/repay_debt_rise_sol.rs:110-170 | accepted if and only if something is owed, what is cleared is held and minted, and the widths fit |
| `CdpClearingAmounts.ClosingMoves` | programs/rise-cdp/src/instructions/close_position.rs:30-124 | the whole recorded debt burned, the whole collateral returned, the position settled and ended; nothing else |
| `CdpClearingAmounts.ClosingIsAcceptedIff` | programs/rise-cdp/src/instructions/close_position.rs:9-70 | accepted if and only if the debt is held, the vault has the collateral, and the widths fit |
| `CdpClearingAmounts.LiquidationMoves` | programs/rise-cdp/src/instructions/liquidate.rs:100-260 | the collateral out of vault and entitlements, the debt off both counters without a burn, the position settled and ended; nothing else but SOL |
| `CdpClearingAmounts.LiquidationPays` | programs/rise-cdp/src/instructions/liquidate.rs:65-230 | the trigger fee is the penalty's part of the swap, rounded down; of the rest interest gets its proportion into the fee vault with the rent, and the pool what remains; nothing if all collateral is refunded |
| `CdpClearingAmounts.LiquidationIsAcceptedIff` | programs/rise-cdp/src/instructions/liquidate.rs:31-73 | accepted if and only if the weighed collateral is worth less than the debt, the vault has the collateral, and the widths fit |
| `CdpTreasuryAmounts.ClaimReturns` | programs/rise-cdp/src/instructions/claim_collateral.rs:87-117 | the vault pays what it has, the rest counts as settled, the entitlement is gone |
| `CdpTreasuryAmounts.ClaimSpends` | programs/rise-cdp/src/instructions/claim_collateral.rs:120-206 | missing tokens are paid for by the SOL set aside, which leaves the buyback vault, or by the reserve, which falls by their cost; never by both |
| `CdpTreasuryAmounts.ClaimIsAcceptedIff` | programs/rise-cdp/src/instructions/claim_collateral.rs:81-131 | every position that is not open is accepted unless missing tokens are paid for by neither |
| `CdpTreasuryAmounts.SeizureMoves` | programs/rise-cdp/src/instructions/redeem_collateral_for_liquidity.rs:54-164 | exactly what was asked for or the tokens for the missing liquidity, if fewer, out of the vault; the swap's SOL into vault and buffer of the pool |
| `CdpTreasuryAmounts.SeizureIsAcceptedIff` | programs/rise-cdp/src/instructions/redeem_collateral_for_liquidity.rs:23-97 | accepted if and only if tickets exceed the buffer, the vault has what is taken, the swap returns SOL, and the widths fit |
| `CdpTreasuryAmounts.CheckpointEmits` | programs/rise-cdp/src/instructions/checkpoint_borrow_rewards.rs:13-57 | the emission is the slots' part of the epoch's, and the rate rises by it per unit of debt, both rounded down; nothing without debt |
| `CdpTreasuryAmounts.RewardsClaimPays` | programs/rise-cdp/src/instructions/claim_borrow_rewards.rs:10-52 | exactly the pending and the newly earned reward leaves the vault |
| `CdpTreasuryAmounts.CdpSweepPays` | programs/rise-cdp/src/instructions/collect_cdp_fees.rs:26-143 | nine tenths, rounded down, into the pool and credited at the rate that follows; half the rest, rounded down, to the veRISE holders; what remains to the reserve |
| `CdpTreasuryAmounts.CdpSweepDistributes` | programs/rise-cdp/src/instructions/collect_cdp_fees.rs:87-143 | the treasury books both parts and raises its index by the holders' part per unit of veRISE |
| `CdpTreasuryAmounts.PoolSweepPays` | programs/rise-staking/src/instructions/collect_fees.rs:38-147 | all that is not booked leaves the pool: team and veRISE parts rounded down, the rest to the reserve; the epoch is taken |
| `CdpTreasuryAmounts.PoolSweepIsAcceptedIff` | programs/rise-staking/src/instructions/collect_fees.rs:15-60 | accepted once per epoch if the parts leave a remainder and fit |
| `CdpTreasuryAmounts.SecondSweepIsRefused` | programs/rise-staking/src/instructions/collect_fees.rs:15-22 | a second sweep of an epoch that was swept is refused |
| `CdpTheorems.DebtCountersAgree` | programs/rise-cdp/src/instructions/repay_debt.rs:150-180 | over every run, cdp_rise_sol_minted = total_cdp_debt = the sum of the principals, and no principal exceeds them |
| `CdpTheorems.SupplyIdentity` | programs/rise-cdp/src/instructions/repay_debt_rise_sol.rs:171-217 | over every run, the riseSOL supply is the staking supply, the principals and what was cleared without a burn |
| `CdpTheorems.UnburnedIsExact` | programs/rise-cdp/src/instructions/liquidate.rs:239-260 | that remainder grows by exactly the principal a SOL or swapped repayment or a liquidation clears |
| `CdpTheorems.OthersLeaveUnburned` | programs/rise-cdp/src/instructions/close_position.rs:30-84 | and by nothing else |
| `CdpTheorems.CollateralConservation` | programs/rise-cdp/src/instructions/claim_collateral.rs:87-117 | per mint, over every regular run: vault + seized = entitlements + bought back, and entitlements = what the positions hold |
| `CdpTheorems.VaultCoversRepaid` | programs/rise-cdp/src/instructions/claim_collateral.rs:87-93 | the vault covers a repaid borrower unless more was seized than bought back |
| `CdpTheorems.RepaidCollateralIsReturned` | programs/rise-cdp/src/instructions/claim_collateral.rs:81-206 | such a borrower's claim goes through at any prices and returns every token from the vault |
| `CdpTheorems.ClaimGoesThrough` | programs/rise-cdp/src/instructions/claim_collateral.rs:120-131 | a claim that finds its tokens, or whose shortfall was set aside at repayment, never fails |
| `CdpRewards.BorrowRewardSolvency` | programs/rise-cdp/src/instructions/checkpoint_borrow_rewards.rs:17-54 | over every run: paid, pending and accrued borrow rewards against emissions plus less than one unit per change of a principal, and emissions below the schedule however checkpoints are spaced |
| `CdpRewards.ChangesAreReweighings` | programs/rise-cdp/src/state.rs:90-116 | the slack counts exactly the accepted instructions of the run that change a principal |
| `CdpRewards.SettlementOnlyOverflows` | programs/rise-cdp/src/state.rs:90-107 | in a reachable state a settlement fails only on an integer width, never on its subtraction |
| `CdpRewards.RewardsClaimIsConservative` | programs/rise-cdp/src/instructions/claim_borrow_rewards.rs:10-52 | a rewards claim pays exactly what was pending and leaves the liability unchanged |
| `CdpRewards.PositionKeepsLiabilityIff` | programs/rise-cdp/src/state.rs:90-116 | an instruction on a position leaves what borrowers are owed no larger if and only if its new entitlement is rounded down by no more than the old one was |
| `CdpRewards.BorrowRewardSolvencyWithDrift` | programs/rise-cdp/src/state.rs:90-116 | over every run, the exact cost of rounding: liability at most what was emitted plus the summed remainder differences of the changes of principal |
| `CdpRewards.BorrowRewardSolvencyWithoutSlack` | programs/rise-cdp/src/state.rs:90-116 | over every run whose changes of principal meet that remainder condition, solvency holds with no slack |
| `CdpTheorems.OpeningIsHealthy` | programs/rise-cdp/src/instructions/open_position.rs:37-62 | straight after opening, liquidation at the same prices is refused |
| `CdpTheorems.BorrowingIsHealthy` | programs/rise-cdp/src/instructions/borrow_more.rs:139-178 | straight after borrowing more, liquidation at the same prices is refused; rests on the pool's rate |
| `CdpTheorems.WithdrawingIsHealthy` | programs/rise-cdp/src/instructions/withdraw_excess.rs:113-203 | straight after withdrawing, liquidation at the same prices is refused unless the debt is worth 1 to 6 micro-USD |
| `CdpTheorems.LendingRespectsCeiling` | programs/rise-cdp/src/instructions/open_position.rs:65-91 | after new debt the minted total is within the ceiling and the loan within its twentieth |
| `CdpTheorems.RepaymentEndsDebtIff` | programs/rise-cdp/src/instructions/repay_debt.rs:260-328 | a repayment closes the position if and only if it is at least the payoff; otherwise debt remains and it stays open |
| `CdpTheorems.ClearingConserves` | programs/rise-cdp/src/instructions/repay_debt.rs:138-171 | what a clearing routes is the SOL value of what it clears |
| `CdpTheorems.RepaymentConserves` | programs/rise-cdp/src/instructions/repay_debt.rs:219-258 | fee vault, pool and buyback vault receive exactly the value of the cleared debt, at most the payment |
| `CdpTheorems.SwappedRepaymentIsARepayment` | programs/rise-cdp/src/instructions/repay_debt_spl.rs:53-166 | a swapped payment has the effect of the same lamports, its change staying in the fee vault |
| `CdpTheorems.LiquidationConserves` | programs/rise-cdp/src/instructions/liquidate.rs:119-172 | tokens, entitlements, counters and the swap's SOL all balance |
| `CdpTheorems.CdpFeesAreAlwaysCredited` | programs/rise-cdp/src/instructions/collect_cdp_fees.rs:54-85 | the sweep is accepted if and only if the widths fit: the credit in it adds no condition |
| `CdpTheorems.CdpFeesConserved` | programs/rise-cdp/src/instructions/collect_cdp_fees.rs:15-143 | what leaves the fee vault arrives at pool, veRISE holders and reserve |
| `CdpTheorems.SeizedLiquidityIsRegistered` | programs/rise-cdp/src/instructions/redeem_collateral_for_liquidity.rs:127-160 | whatever positive output a seizure has is registered with the pool |
| `CdpTheorems.SeizureIsCapped` | programs/rise-cdp/src/instructions/redeem_collateral_for_liquidity.rs:54-75 | a seizure takes tokens worth at most the liquidity shortfall, and no entitlement |
| `CdpTheorems.RunKeepsRate` | programs/rise-staking/src/instructions/update_exchange_rate.rs:59-70 | the exchange rate never falls in any joint run |
| `CdpTheorems.BackingChain` | programs/rise-staking/src/instructions/update_exchange_rate.rs:18-70 | the pool's backing chain in every joint run |
| `CdpTheorems.TicketSurvives` | programs/rise-staking/src/instructions/claim_unstake.rs:11-51 | over every joint run, no program but the pool, and there nothing but its own redemption, touches a ticket |
| `CdpTheorems.RedemptionPaysTheLockedAmount` | programs/rise-staking/src/instructions/claim_unstake.rs:14-46 | over every joint run, a redemption is paid the value locked at its request, from two epochs later on |
| `CdpTheorems.RevenueStaysSolvent` | programs/rise-staking/src/instructions/collect_fees.rs:98-141 | sweeps and buybacks keep the veRISE revenue solvent; only an extension can endanger it |
| `CdpTheorems.RunKeepsRevenueSolvent` | programs/rise-staking/src/instructions/collect_fees.rs:98-141 | and so does every joint run whose extensions are harmless |
| `CdpTheorems.RevenueSolvency` | programs/rise-staking/src/instructions/register_external_revenue.rs:25-55 | from the initial programs, over every such joint run and without slack: claimed and claimable revenue is covered, and the vault holds what each lock has due |
| `CdpTheorems.RunKeepsReserve` | programs/rise-staking/src/instructions/withdraw_treasury_for_cdp_buyback.rs:18-49 | over every joint run the reserve counter equals its vault |
| `CdpProgram.Program.constructor` | programs/rise-cdp/src/instructions/initialize_cdp_config.rs:5-21 | the initialised engine beside a new pool and treasury is valid |
| `CdpProgram.Program.EffectiveRate` | programs/rise-cdp/src/instructions/accrue_interest.rs:28-84 | computes the kinked rate; in the configured ranges no step aborts |
| `CdpProgram.Program.RateAt` | programs/rise-cdp/src/instructions/accrue_interest.rs:48-84 | the curve with its checked steps |
| `CdpProgram.Program.InterestDue` | programs/rise-cdp/src/instructions/accrue_interest.rs:86-97 | principal times rate times slots over 10,000 years, rounded down, or overflow exactly when a product or the cast does not fit |
| `CdpProgram.Program.Accrue` | programs/rise-cdp/src/instructions/repay_debt.rs:18-106 | the lazy accrual: the slot stays while the interest is zero |
| `CdpProgram.Program.Settle` | programs/rise-cdp/src/state.rs:90-116 | settle and sync_debt succeed exactly when the rules say |
| `CdpProgram.Program.ValueTokens` | programs/rise-cdp/src/instructions/open_position.rs:37-42 | collateral value in micro-USD, or failure |
| `CdpProgram.Program.ValueDebt` | programs/rise-cdp/src/instructions/liquidate.rs:45-50 | debt value in micro-USD, or failure |
| `CdpProgram.Program.Health` | programs/rise-cdp/src/state.rs:351-365 | the health factor, or overflow |
| `CdpProgram.Program.CheckCeiling` | programs/rise-cdp/src/instructions/open_position.rs:65-91 | debt ceiling and single-loan cap, with their error codes |
| `CdpProgram.Program.OpenHandler` | programs/rise-cdp/src/instructions/open_position.rs:9-187 | goes through exactly when the rules allow the opening, and builds the position |
| `CdpProgram.Program.OpenPosition` | programs/rise-cdp/src/instructions/open_position.rs:9-187 | the whole new state of an opening; a refused one changes nothing |
| `CdpProgram.Program.BorrowHandler` | programs/rise-cdp/src/instructions/borrow_more.rs:110-268 | accrues, values, checks limits and settles exactly as the rules say; the resulting debt is within the maximum loan-to-value |
| `CdpProgram.Program.BorrowMore` | programs/rise-cdp/src/instructions/borrow_more.rs:110-268 | the whole new state of a borrowing |
| `CdpProgram.Program.AddHandler` | programs/rise-cdp/src/instructions/add_collateral.rs:8-74 | collateral, entitlement and health after adding |
| `CdpProgram.Program.AddCollateral` | programs/rise-cdp/src/instructions/add_collateral.rs:8-74 | the whole new state of adding collateral |
| `CdpProgram.Program.CheckExcess` | programs/rise-cdp/src/instructions/withdraw_excess.rs:127-154 | the 80% requirement decides exactly as the rules say |
| `CdpProgram.Program.WithdrawHandler` | programs/rise-cdp/src/instructions/withdraw_excess.rs:8-208 | accrual, requirement and revaluation of a withdrawal |
| `CdpProgram.Program.WithdrawExcess` | programs/rise-cdp/src/instructions/withdraw_excess.rs:8-208 | the whole new state of a withdrawal |
| `CdpProgram.Program.CrankHandler` | programs/rise-cdp/src/instructions/accrue_interest.rs:6-113 | the crank charges exactly the interest of the slots passed and moves the slot even without any |
| `CdpProgram.Program.AccrueInterest` | programs/rise-cdp/src/instructions/accrue_interest.rs:6-113 | the whole new state of a crank |
| `CdpProgram.Program.Clear` | programs/rise-cdp/src/instructions/repay_debt.rs:136-157 | interest first, then principal |
| `CdpProgram.Program.PaymentsFit` | programs/rise-cdp/src/instructions/repay_debt.rs:159-171 | no product of a repayment overflows and no cast loses value |
| `CdpProgram.Program.SettleRepayment` | programs/rise-cdp/src/instructions/repay_debt.rs:115-186 | the waterfall of a payment, accepted exactly when it is worth at least one unit |
| `CdpProgram.Program.ShortfallInSol` | programs/rise-cdp/src/instructions/claim_collateral.rs:25-40 | missing tokens in SOL, cast to 64 bits |
| `CdpProgram.Program.ClearHandler` | programs/rise-cdp/src/instructions/repay_debt.rs:260-300 | everything a repayment does before it moves SOL |
| `CdpProgram.Program.RepayDebt` | programs/rise-cdp/src/instructions/repay_debt.rs:260-328 | the whole new state of a repayment in SOL |
| `CdpProgram.Program.RepayDebtSpl` | programs/rise-cdp/src/instructions/repay_debt_spl.rs:53-166 | the whole new state of a repayment in a swapped token |
| `CdpProgram.Program.RepayRiseSolHandler` | programs/rise-cdp/src/instructions/repay_debt_rise_sol.rs:110-237 | the burn waterfall, exactly when both programs can bear it |
| `CdpProgram.Program.RepayDebtRiseSol` | programs/rise-cdp/src/instructions/repay_debt_rise_sol.rs:110-237 | the whole new state of a repayment in riseSOL |
| `CdpProgram.Program.CloseHandler` | programs/rise-cdp/src/instructions/close_position.rs:9-124 | a full burn and the return of the collateral |
| `CdpProgram.Program.ClosePosition` | programs/rise-cdp/src/instructions/close_position.rs:9-124 | the whole new state of a closing |
| `CdpProgram.Program.Split` | programs/rise-cdp/src/instructions/liquidate.rs:147-172 | the fee is the penalty's part, the interest its proportion of the rest, both rounded down, the principal what remains; no step aborts |
| `CdpProgram.Program.GateHandler` | programs/rise-cdp/src/instructions/liquidate.rs:31-73 | the health gate and the refund |
| `CdpProgram.Program.LiquidateHandler` | programs/rise-cdp/src/instructions/liquidate.rs:21-266 | goes through exactly when the rules allow the liquidation |
| `CdpProgram.Program.Liquidate` | programs/rise-cdp/src/instructions/liquidate.rs:21-266 | the whole new state of a liquidation |
| `CdpProgram.Program.ClaimHandler` | programs/rise-cdp/src/instructions/claim_collateral.rs:81-196 | available tokens, shortfall and its funding |
| `CdpProgram.Program.ClaimCollateral` | programs/rise-cdp/src/instructions/claim_collateral.rs:81-206 | the whole new state of a claim |
| `CdpProgram.Program.SeizeHandler` | programs/rise-cdp/src/instructions/redeem_collateral_for_liquidity.rs:23-97 | the capped seizure, only in a liquidity shortfall |
| `CdpProgram.Program.RedeemCollateral` | programs/rise-cdp/src/instructions/redeem_collateral_for_liquidity.rs:23-164 | the whole new state of a seizure |
| `CdpProgram.Program.CheckpointHandler` | programs/rise-cdp/src/instructions/checkpoint_borrow_rewards.rs:32-52 | the emission and the new rate, or overflow |
| `CdpProgram.Program.CheckpointBorrowRewards` | programs/rise-cdp/src/instructions/checkpoint_borrow_rewards.rs:13-57 | the whole new state of a checkpoint |
| `CdpProgram.Program.RewardsHandler` | programs/rise-cdp/src/instructions/claim_borrow_rewards.rs:10-49 | settle, pay, resynchronise |
| `CdpProgram.Program.ClaimBorrowRewards` | programs/rise-cdp/src/instructions/claim_borrow_rewards.rs:10-52 | the whole new state of a rewards claim |
| `CdpProgram.Program.Shares` | programs/rise-cdp/src/instructions/collect_cdp_fees.rs:26-48 | the three shares in 64-bit arithmetic, or overflow |
| `CdpProgram.Program.CdpFeesHandler` | programs/rise-cdp/src/instructions/collect_cdp_fees.rs:15-143 | the sweep, exactly when the rules allow it |
| `CdpProgram.Program.CollectCdpFees` | programs/rise-cdp/src/instructions/collect_cdp_fees.rs:15-143 | the whole new state of a sweep |
| `CdpProgram.Program.FeesHandler` | programs/rise-staking/src/instructions/collect_fees.rs:15-60 | the cuts of the pool's excess |
| `CdpProgram.Program.CollectFees` | programs/rise-staking/src/instructions/collect_fees.rs:15-154 | the whole new state of a pool sweep |
| `CdpProgram.Program.Configure` | programs/rise-cdp/src/instructions/update_collateral_config.rs:5-86 | debt ceiling and collateral configuration, with their checks |
| `CdpProgram.Program.Execute` | programs/rise-cdp/src/instructions/repay_debt.rs:260-328 | one transaction is exactly one step of the rules; every invariant is kept, and the collateral books by every regular step |

## Where code and comments disagree

The model follows the code.

- `liquidate` (programs/rise-cdp/src/instructions/liquidate.rs:13-20) announces a trigger fee in collateral
  and a refund above debt and fee; the code refunds everything above the debt and pays the fee in SOL.
- `borrow_more` (programs/rise-cdp/src/instructions/borrow_more.rs:10-18) says that no token is minted; the
  code mints.
- `claim_collateral` (programs/rise-cdp/src/instructions/claim_collateral.rs:8-22) expects a repayment before it;
  the code accepts every position that is not open.
- `collect_fees` (programs/rise-staking/src/instructions/collect_fees.rs:45-60) speaks of 25%, 25% and 50%; the
  shares are configured.
- `liquidation_threshold_bps` (programs/rise-cdp/src/state.rs:164-166) is described as a part of the maximum
  loan-to-value; the code weighs the collateral's value with it.

## Left out

- Account validation, signers, seeds, bumps and rent exemption: framework behaviour; a missing account is one error.
- Which of two failing checks of a handler reports first, beyond the error codes stated; error codes of the four
  programs are merged into one type.
- Oracle decoding, staleness and confidence, and swap routing: a price is a parameter (zero is refused), a swap
  returns an arbitrary amount.
- CdpProgram.Program.Execute: holds the pool and the treasury as values and takes their steps, which
  `StakingProgram` and `GovernanceProgram` prove of their own handlers; aliasing between programs is not modelled.
- CdpTheorems.CollateralConservation: holds over runs whose claims are on repaid positions or on positions that
  record no collateral; `CdpCustody.ClaimKeepsCustodyIff` shows that this is exactly what it takes.
- GovernanceTheorems.RevenueSolvency: holds over runs whose lock extensions are harmless, which
  `Governance.ExtendKeepsLiabilityIff` shows to be exactly what it takes.
- GovernanceProgram.Program.LockHandler: decides on the lock alone; the metadata account of its NFT, whose creation
  can fail, and the freeze authority of the NFT's mint are left out.
- GovernanceProgram.Program.LockRise: records the NFT's holder; likewise without metadata and freezing.
- CdpTheorems.RevenueSolvency: the same restriction over joint runs.
- GaugeTheorems.GaugeSolvency: with less than one unit of slack per deposit or withdrawal, because without it the
  bound is false; `GaugeSolvencyWithDrift` has the exact amount, `GaugeSolvencyWithoutSlack` the runs that need none.
- CdpRewards.BorrowRewardSolvency: with less than one unit of slack per change of principal, for the same reason.
- GaugeSystem.EpochBudget: holds over runs whose changes of weights and emission are prudent, because without that
  it is false; the gauges exist from the start, as a new one has no weight until it is given one.
- StakingProgram.Program.StakeHandler: called without the optional stake-rewards accounts
  (programs/rise-staking/src/instructions/stake_sol.rs:24-43), whose settlement can add a refusal.
- StakingProgram.Program.StakeSol: likewise without the optional stake-rewards accounts.
- StakingProgram.Program.UnstakeHandler: likewise without them (unstake_rise_sol.rs:12-31).
- StakingProgram.Program.UnstakeRiseSol: likewise without them.
- StakingTheorems.UnstakeGoesThrough: likewise, of an unstake without them.
- Interest.AccrualAgainstSingle: at a fixed principal and rate; a rate that moves between calls is not compared.
- Direct burns of riseSOL by holders, donations of collateral tokens, of RISE and of SOL to the treasury's vaults, and
  closing the wrapped-SOL account with a foreign balance.
- Staking RISE rewards (`checkpoint_stake_rewards`, `claim_stake_rewards`): their weight is a token balance that no
  counter is tied to, so no sum bound is what the code maintains.
- Migrations, stale closes, closing and re-creating configuration and rewards accounts: they reset counters on purpose.
- Proposals, votes and gauge votes: outside the accounting modelled here.
- Display-only fields: previous rate and slot, opening slot, position nonce, last checkpoint slot of a position.
- `update_treasury_config`, `update_governance_config`, payment configuration, conversion slippage and feed
  identifiers: configuration that the statements are universally quantified over or that only names accounts.
- The paid token of `repay_debt_spl` and its amount: only what the swap returned matters to the accounts.
- The crank bot, scripts and TypeScript tests: network clients.
