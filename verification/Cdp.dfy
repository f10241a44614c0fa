/** The rules of the CDP engine (rise-cdp): positions with their borrow rewards, the collateral of
    every mint, and the staking pool and treasury it calls into, as one state machine over
    instructions. A call into another program is that program's own step. */
module Cdp {
  import opened Arithmetic
  import opened MapSums
  import opened Accumulator
  import opened Interest
  import opened Risk
  import opened Settlement
  import Pool = StakingPool
  import Gov = Governance

  const U32: nat := 0x1_0000_0000
  const MAX_SINGLE_LOAN_BPS: nat := 500

  type pos = x: nat | 0 < x witness 1

  datatype Terms = Terms(maxLtv: nat, threshold: nat, penalty: nat, curve: Curve)

  /** The terms of a mint that an authority changes at once; the others stay as they are. */
  datatype Update = Update(
    maxLtv: Option<nat>, threshold: Option<nat>, penalty: Option<nat>,
    base: Option<nat>, slope1: Option<nat>, slope2: Option<nat>, optimal: Option<nat>, active: Option<bool>)

  /** `CollateralConfig` and the vault of one mint; `unit` is ten to the number of its decimals.
      `seized` and `settled` are history: tokens taken for liquidity, shortfalls bought back. */
  datatype Collateral = Collateral(
    active: bool, terms: Terms, unit: pos, entitlements: nat, vault: nat, seized: nat, settled: nat)

  /** The phases of a position: open; closed by full repayment, its collateral still to be claimed;
      ended by `close_position` or `liquidate`, which settle the collateral themselves. */
  datatype Phase = Open | AwaitingClaim | Ended

  datatype Rewards = Rewards(debt: nat, pending: nat, claimed: nat)

  /** `CdpPosition` and its `BorrowRewards`. */
  datatype Position = Position(
    mint: Id, collateral: nat, loan: Loan, phase: Phase, buyback: nat, rewards: Rewards,
    collateralUsd: nat, health: nat)

  /** Micro-USD per whole token, as the oracle reports them. */
  datatype Prices = Prices(collateral: nat, sol: nat)

  datatype State = State(
    // CdpConfig and BorrowRewardsConfig
    minted: nat, multiplierBps: nat,
    rewardPerToken: nat, epochEmissions: nat, slotsPerEpoch: nat, totalDebt: nat, lastCheckpoint: nat,
    // CollateralConfig and CdpPosition accounts
    collaterals: map<Id, Collateral>, positions: map<Id, Position>,
    // cdp_fee_vault, cdp_wsol_buyback_vault, borrow_rewards_vault
    feeVault: nat, buybackVault: nat, rewardsVault: nat,
    // accounts of the other programs
    pool: Pool.State, gov: Gov.State,
    // history: principal cleared without a burn; borrow rewards emitted and paid, changes of
    // principal, and the slot the emissions started at
    unburned: nat, emitted: nat, paid: nat, changes: nat, startSlot: nat)

  /** `held` is the balance the signer pays from, `rent` the lamports that keep an account alive,
      `sol` what a swap returned. */
  datatype Instruction =
    | OpenPosition(position: Id, mint: Id, collateral: u64, amount: u64, held: u64, prices: Prices, slot: u64)
    | BorrowMore(position: Id, amount: u64, prices: Prices, slot: u64)
    | AddCollateral(position: Id, amount: u64, held: u64, prices: Prices)
    | WithdrawExcess(position: Id, amount: u64, prices: Prices, slot: u64)
    | AccrueInterest(position: Id, slot: u64)
    | RepayDebt(position: Id, lamports: u64, held: u64, prices: Prices, slot: u64)
    | RepayDebtSpl(position: Id, sol: u64, rent: u64, prices: Prices, slot: u64)
    | RepayDebtRiseSol(position: Id, amount: u64, held: u64, slot: u64)
    | ClosePosition(position: Id, held: u64)
    | Liquidate(position: Id, prices: Prices, sol: u64, rent: u64)
    | ClaimCollateral(position: Id, prices: Prices, rent: u64)
    | RedeemCollateral(mint: Id, amount: u64, prices: Prices, sol: u64, rent: u64)
    | CheckpointBorrowRewards(slot: u64)
    | ClaimBorrowRewards(position: Id)
    | FundBorrowRewards(amount: u64)
    | CollectCdpFees(rent: u64)
    | CollectFees(epoch: u64)
    | UpdateDebtCeiling(multiplierBps: u64)
    | InitializeCollateral(mint: Id, terms: Terms, unit: pos)
    | UpdateCollateral(mint: Id, update: Update)
    | PoolInstruction(pool: Pool.Instruction)
    | GovernanceInstruction(gov: Gov.Instruction)

  /** After the initialisation instructions of the three programs. */
  function Genesis(
    multiplierBps: nat, emissions: nat, slotsPerEpoch: nat, slot: nat, pool: Pool.State, gov: Gov.State): State
  {
    State(0, multiplierBps, 0, emissions, slotsPerEpoch, 0, slot, map[], map[], 0, 0, 0, pool, gov, 0, 0, 0, 0, slot)
  }

  // --- Lookups ----------------------------------------------------------------

  predicate Active(s: State, k: Id) {
    k in s.positions && s.positions[k].phase.Open? && s.positions[k].mint in s.collaterals
  }

  function CollateralFor(s: State, k: Id): Collateral
    requires k in s.positions && s.positions[k].mint in s.collaterals
  {
    s.collaterals[s.positions[k].mint]
  }

  function CeilingNow(s: State): nat { Ceiling(s.pool.stakingSupply, s.multiplierBps) }

  function BorrowRate(s: State, curve: Curve): nat { RateBps(curve, Utilization(s.minted, CeilingNow(s))) }

  function PrincipalAt(s: State, k: Id): nat {
    if k in s.positions then s.positions[k].loan.principal else 0
  }

  // --- Accrual, valuation and settlement ---------------------------------------

  predicate CanAccrue(l: Loan, rateBps: nat, slot: nat) {
    l.lastSlot < slot ==>
      && l.principal * rateBps * (slot - l.lastSlot) < U128
      && l.interest + InterestFor(l.principal, rateBps, slot - l.lastSlot) < U64
  }

  predicate CanAccrueAt(s: State, k: Id, slot: nat) {
    Active(s, k) && CanAccrue(s.positions[k].loan, BorrowRate(s, CollateralFor(s, k).terms.curve), slot)
  }

  /** The loan with the interest of the lazy accrual. */
  function LoanAt(s: State, k: Id, slot: nat): Loan
    requires Active(s, k)
  {
    Accrued(s.positions[k].loan, BorrowRate(s, CollateralFor(s, k).terms.curve), slot)
  }

  /** `compute_health_factor`. */
  predicate CanRate(collateralUsd: nat, debtUsd: nat, threshold: nat) {
    0 < debtUsd ==> collateralUsd * threshold < U128 && collateralUsd * threshold / BPS * HEALTH_SCALE < U128
  }

  predicate CanValueDebt(l: Loan, solPrice: nat) {
    TotalOwed(l) < U64 && 0 < solPrice && TotalOwed(l) * solPrice < U128
  }

  predicate CanValueTokens(tokens: nat, price: nat) { 0 < price && tokens * price < U128 }

  function ShareIn(p: Position): Share { Share(p.loan.principal, p.rewards.debt, p.rewards.pending) }

  /** `BorrowRewards::settle`, then `sync_debt` for a new principal. */
  predicate CanSettle(p: Position, rate: nat, principal: nat) {
    && p.loan.principal * rate < U128 && principal * rate < U128
    && 0 <= Earned(ShareIn(p), rate) && p.rewards.pending + Earned(ShareIn(p), rate) < U64
  }

  function SettledRewards(p: Position, rate: nat, principal: nat): Rewards
    requires 0 <= Earned(ShareIn(p), rate)
  {
    Rewards(Entitled(principal, rate), p.rewards.pending + Earned(ShareIn(p), rate), p.rewards.claimed)
  }

  /** Writes a position; a change of principal is counted. */
  function Put(s: State, k: Id, p: Position): State {
    s.(positions := s.positions[k := p],
       changes := s.changes + if p.loan.principal == PrincipalAt(s, k) then 0 else 1)
  }

  /** Takes principal off the two counters, as the programs do: saturating. */
  function Forgiven(s: State, principal: nat): State {
    s.(minted := SaturatingSub(s.minted, principal), totalDebt := SaturatingSub(s.totalDebt, principal))
  }

  // --- Borrowing --------------------------------------------------------------

  /** The debt ceiling, and the cap on a single loan. */
  predicate CanLend(s: State, amount: nat, principal: nat) {
    s.minted + amount <= CeilingNow(s) && principal <= CeilingNow(s) * MAX_SINGLE_LOAN_BPS / BPS
  }

  predicate CanMint(s: State, amount: u64) {
    s.totalDebt + amount < U64 && Pool.Accepts(s.pool, Pool.MintForCdp(amount))
  }

  function Lent(s: State, amount: u64): State
    requires CanMint(s, amount)
  {
    s.(minted := s.minted + amount, totalDebt := s.totalDebt + amount,
       pool := Pool.Apply(s.pool, Pool.MintForCdp(amount)))
  }

  /** The collateral's value bears the debt, within the maximum loan-to-value. */
  predicate Bears(c: Collateral, tokens: nat, amount: nat, prices: Prices) {
    && 0 < prices.sol && CanValueTokens(tokens, prices.collateral)
    && var usd := CollateralUsd(tokens, prices.collateral, c.unit);
    && usd * c.terms.maxLtv < U128 && MaxDebtUsd(usd, c.terms.maxLtv) * LAMPORTS_PER_SOL < U128
    && amount <= MaxDebtUsd(usd, c.terms.maxLtv) * LAMPORTS_PER_SOL / prices.sol
    && amount * prices.sol < U128 && CanRate(usd, DebtUsd(amount, prices.sol), c.terms.threshold)
  }

  predicate CanOpen(s: State, k: Id, mint: Id, tokens: nat, amount: u64, held: nat, prices: Prices) {
    && k !in s.positions && mint in s.collaterals
    && var c := s.collaterals[mint];
    && c.active && 0 < tokens <= held && Bears(c, tokens, amount, prices)
    && CanLend(s, amount, amount)
    && c.entitlements + tokens < U64 && c.vault + tokens < U64
    && amount * s.rewardPerToken < U128 && CanMint(s, amount)
  }

  function Deposited(c: Collateral, tokens: nat): Collateral {
    c.(entitlements := c.entitlements + tokens, vault := c.vault + tokens)
  }

  function OpenedPosition(s: State, mint: Id, tokens: nat, amount: nat, prices: Prices, slot: nat): Position
    requires mint in s.collaterals
  {
    var c := s.collaterals[mint];
    var usd := CollateralUsd(tokens, prices.collateral, c.unit);
    Position(mint, tokens, Loan(amount, 0, slot), Open, 0, Rewards(Entitled(amount, s.rewardPerToken), 0, 0),
             usd, HealthFactor(usd, DebtUsd(amount, prices.sol), c.terms.threshold))
  }

  function Opened(s: State, k: Id, mint: Id, tokens: nat, amount: u64, prices: Prices, slot: nat): State
    requires mint in s.collaterals && CanMint(s, amount)
  {
    Put(Lent(s, amount), k, OpenedPosition(s, mint, tokens, amount, prices, slot))
      .(collaterals := s.collaterals[mint := Deposited(s.collaterals[mint], tokens)])
  }

  predicate CanBorrow(s: State, k: Id, amount: u64, prices: Prices, slot: nat) {
    && CanAccrueAt(s, k, slot) && 0 < prices.sol && CanMint(s, amount)
    && var p, c, l := s.positions[k], CollateralFor(s, k), LoanAt(s, k, slot);
    && CanValueTokens(p.collateral, prices.collateral)
    && var usd := CollateralUsd(p.collateral, prices.collateral, c.unit);
    && TotalOwed(l) + amount < U64 && (TotalOwed(l) + amount) * s.pool.rate < U128
    && var sol := InSol(TotalOwed(l) + amount, s.pool.rate);
    && sol * prices.sol < U128 && usd * c.terms.maxLtv < U128
    && DebtUsd(sol, prices.sol) <= MaxDebtUsd(usd, c.terms.maxLtv)
    && CanLend(s, amount, l.principal + amount)
    && CanSettle(p, s.rewardPerToken, l.principal + amount)
    && CanRate(usd, DebtUsd(sol, prices.sol), c.terms.threshold)
  }

  function BorrowedPosition(s: State, k: Id, amount: nat, prices: Prices, slot: nat): Position
    requires Active(s, k) && CanSettle(s.positions[k], s.rewardPerToken, LoanAt(s, k, slot).principal + amount)
  {
    var p, c, l := s.positions[k], CollateralFor(s, k), LoanAt(s, k, slot);
    var usd := CollateralUsd(p.collateral, prices.collateral, c.unit);
    p.(loan := l.(principal := l.principal + amount),
       rewards := SettledRewards(p, s.rewardPerToken, l.principal + amount),
       collateralUsd := usd,
       health := HealthFactor(usd, DebtUsd(InSol(TotalOwed(l) + amount, s.pool.rate), prices.sol), c.terms.threshold))
  }

  function Borrowed(s: State, k: Id, amount: u64, prices: Prices, slot: nat): State
    requires CanBorrow(s, k, amount, prices, slot)
  {
    Put(Lent(s, amount), k, BorrowedPosition(s, k, amount, prices, slot))
  }

  // --- Collateral of an open position ------------------------------------------

  predicate CanAdd(s: State, k: Id, amount: nat, held: nat, prices: Prices) {
    && Active(s, k) && 0 < amount <= held
    && var p, c := s.positions[k], CollateralFor(s, k);
    && c.entitlements + amount < U64 && c.vault + amount < U64 && p.collateral + amount < U64
    && CanValueTokens(p.collateral + amount, prices.collateral) && CanValueDebt(p.loan, prices.sol)
    && CanRate(CollateralUsd(p.collateral + amount, prices.collateral, c.unit),
               DebtUsd(TotalOwed(p.loan), prices.sol), c.terms.threshold)
  }

  /** A position holding other collateral, valued anew. */
  function Recollateralized(p: Position, c: Collateral, loan: Loan, tokens: nat, prices: Prices): Position {
    var usd := CollateralUsd(tokens, prices.collateral, c.unit);
    p.(collateral := tokens, loan := loan, collateralUsd := usd,
       health := HealthFactor(usd, DebtUsd(TotalOwed(loan), prices.sol), c.terms.threshold))
  }

  function Added(s: State, k: Id, amount: nat, prices: Prices): State
    requires Active(s, k)
  {
    var p, c := s.positions[k], CollateralFor(s, k);
    Put(s, k, Recollateralized(p, c, p.loan, p.collateral + amount, prices))
      .(collaterals := s.collaterals[p.mint := Deposited(c, amount)])
  }

  /** Tokens that leave the vault and the entitlements together. */
  function Returned(c: Collateral, fromVault: nat, owed: nat): Collateral
    requires fromVault <= c.vault
  {
    c.(entitlements := SaturatingSub(c.entitlements, owed), vault := c.vault - fromVault)
  }

  predicate CanWithdrawAt(s: State, k: Id, amount: nat, prices: Prices, slot: nat) {
    && CanAccrueAt(s, k, slot)
    && var p, c, l := s.positions[k], CollateralFor(s, k), LoanAt(s, k, slot);
    && CanValueTokens(p.collateral, prices.collateral) && CanValueDebt(l, prices.sol)
    && DebtUsd(TotalOwed(l), prices.sol) * BPS < U128
    && CanWithdraw(p.collateral, amount, prices.collateral, c.unit, DebtUsd(TotalOwed(l), prices.sol), c.terms.maxLtv)
    && amount <= c.vault
    && CanRate(CollateralUsd(p.collateral - amount, prices.collateral, c.unit),
               DebtUsd(TotalOwed(l), prices.sol), c.terms.threshold)
  }

  function Withdrawn(s: State, k: Id, amount: nat, prices: Prices, slot: nat): State
    requires CanWithdrawAt(s, k, amount, prices, slot)
  {
    var p, c := s.positions[k], CollateralFor(s, k);
    Put(s, k, Recollateralized(p, c, LoanAt(s, k, slot), p.collateral - amount, prices))
      .(collaterals := s.collaterals[p.mint := Returned(c, amount, amount)])
  }

  // --- Interest ---------------------------------------------------------------

  function CrankedAt(s: State, k: Id, slot: nat): State
    requires Active(s, k)
  {
    var p := s.positions[k];
    Put(s, k, p.(loan := Cranked(p.loan, BorrowRate(s, CollateralFor(s, k).terms.curve), slot)))
  }

  // --- Repayment --------------------------------------------------------------

  /** The part of the principal SOL that buys back collateral missing from the vault, once the
      debt is gone. */
  predicate CanDivert(c: Collateral, tokens: nat, prices: Prices) {
    c.vault < tokens ==>
      && CanValueTokens(Shortfall(tokens, c.vault), prices.collateral) && 0 < prices.sol
      && CollateralUsd(Shortfall(tokens, c.vault), prices.collateral, c.unit) * LAMPORTS_PER_SOL < U128
  }

  /** A repayment in SOL, however the SOL was come by: accrue, settle, clear, divert. */
  datatype Clearing = Clearing(loan: Loan, waterfall: Waterfall, divert: nat)

  predicate CanClear(s: State, k: Id, lamports: nat, prices: Prices, slot: nat) {
    && CanAccrueAt(s, k, slot) && 0 < s.pool.rate && 0 < lamports
    && var p, l := s.positions[k], LoanAt(s, k, slot);
    && 0 < InRiseSol(lamports, s.pool.rate) < U64 && 0 < TotalOwed(l) < U64
    && CanSettle(p, s.rewardPerToken, Repaid(l, InRiseSol(lamports, s.pool.rate)).principal)
    && (TotalOwed(Repaid(l, InRiseSol(lamports, s.pool.rate))) == 0 ==>
          CanDivert(CollateralFor(s, k), p.collateral, prices))
  }

  function ClearingOf(s: State, k: Id, lamports: nat, prices: Prices, slot: nat): Clearing
    requires CanClear(s, k, lamports, prices, slot)
  {
    var p, c, l := s.positions[k], CollateralFor(s, k), LoanAt(s, k, slot);
    var after := Repaid(l, InRiseSol(lamports, s.pool.rate));
    var w := Repay(l, lamports, s.pool.rate);
    Clearing(after, w,
             if 0 < TotalOwed(after) || p.collateral <= c.vault then 0
             else Diverted(p.collateral, c.vault, w.principalSol, prices.collateral, c.unit, prices.sol))
  }

  function ToPool(r: Clearing): nat { SaturatingSub(r.waterfall.principalSol, r.divert) }

  predicate CanRoute(s: State, r: Clearing) {
    s.pool.vault + ToPool(r) < U64 && s.buybackVault + r.divert < U64
  }

  function ClearedPosition(s: State, k: Id, r: Clearing): Position
    requires k in s.positions && 0 <= Earned(ShareIn(s.positions[k]), s.rewardPerToken)
  {
    var p := s.positions[k];
    var q := p.(loan := r.loan, rewards := SettledRewards(p, s.rewardPerToken, r.loan.principal));
    if TotalOwed(r.loan) == 0 then q.(phase := AwaitingClaim, buyback := r.divert) else q
  }

  /** What every repayment in SOL does, but for the fee vault. */
  function ClearedBy(s: State, k: Id, r: Clearing): State
    requires k in s.positions && 0 <= Earned(ShareIn(s.positions[k]), s.rewardPerToken) && CanRoute(s, r)
  {
    Put(Forgiven(s, r.waterfall.principalCleared), k, ClearedPosition(s, k, r))
      .(unburned := s.unburned + r.waterfall.principalCleared,
        pool := Pool.Apply(s.pool, Pool.TransferIn(ToPool(r))),
        buybackVault := s.buybackVault + r.divert)
  }

  predicate CanRepay(s: State, k: Id, lamports: nat, held: nat, prices: Prices, slot: nat) {
    && CanClear(s, k, lamports, prices, slot)
    && var r := ClearingOf(s, k, lamports, prices, slot);
    && CanRoute(s, r) && r.waterfall.interestSol + r.waterfall.principalSol <= held
    && s.feeVault + r.waterfall.interestSol < U64
  }

  function RepaidBy(s: State, k: Id, lamports: nat, held: nat, prices: Prices, slot: nat): State
    requires CanRepay(s, k, lamports, held, prices, slot)
  {
    var r := ClearingOf(s, k, lamports, prices, slot);
    ClearedBy(s, k, r).(feeVault := s.feeVault + r.waterfall.interestSol)
  }

  /** The SOL of a swapped payment lands in the fee vault, and only principal leaves it again. */
  predicate CanRepaySpl(s: State, k: Id, sol: nat, rent: nat, prices: Prices, slot: nat) {
    && CanClear(s, k, sol, prices, slot)
    && CanRoute(s, ClearingOf(s, k, sol, prices, slot)) && s.feeVault + sol + rent < U64
  }

  function RepaidSpl(s: State, k: Id, sol: nat, rent: nat, prices: Prices, slot: nat): State
    requires CanRepaySpl(s, k, sol, rent, prices, slot)
  {
    var r := ClearingOf(s, k, sol, prices, slot);
    WaterfallConserves(LoanAt(s, k, slot), sol, s.pool.rate);
    ClearedBy(s, k, r).(feeVault := s.feeVault + sol + rent - ToPool(r) - r.divert)
  }

  // --- Burning riseSOL --------------------------------------------------------

  predicate CanBurn(pool: Pool.State, amount: nat, interest: nat) {
    amount <= pool.tokenSupply && interest <= pool.stakingSupply
  }

  /** Burn, and report the part of it that was interest. */
  function Burned(pool: Pool.State, amount: nat, interest: nat): Pool.State
    requires CanBurn(pool, amount, interest)
  {
    pool.(tokenSupply := pool.tokenSupply - amount, stakingSupply := pool.stakingSupply - interest)
  }

  predicate CanRepayRiseSol(s: State, k: Id, amount: nat, held: nat, slot: nat) {
    && CanAccrueAt(s, k, slot) && 0 < amount
    && var p, l := s.positions[k], LoanAt(s, k, slot);
    && 0 < TotalOwed(l) < U64
    && CanSettle(p, s.rewardPerToken, Repaid(l, amount).principal)
    && Cleared(l, amount).0 + Cleared(l, amount).1 <= held
    && CanBurn(s.pool, Cleared(l, amount).0 + Cleared(l, amount).1, Cleared(l, amount).0)
  }

  function BurnedPosition(p: Position, rate: nat, after: Loan): Position
    requires 0 <= Earned(ShareIn(p), rate)
  {
    var q := p.(loan := after, rewards := SettledRewards(p, rate, after.principal));
    if TotalOwed(after) == 0 then q.(phase := AwaitingClaim, buyback := 0) else q
  }

  /** A loan paid down by burning riseSOL. */
  function BurnedDown(s: State, k: Id, after: Loan, interest: nat, principal: nat): State
    requires k in s.positions && 0 <= Earned(ShareIn(s.positions[k]), s.rewardPerToken)
    requires CanBurn(s.pool, interest + principal, interest)
  {
    Put(Forgiven(s, principal), k, BurnedPosition(s.positions[k], s.rewardPerToken, after))
      .(pool := Burned(s.pool, interest + principal, interest))
  }

  function RepaidRiseSol(s: State, k: Id, amount: nat, held: nat, slot: nat): State
    requires CanRepayRiseSol(s, k, amount, held, slot)
  {
    var l := LoanAt(s, k, slot);
    BurnedDown(s, k, Repaid(l, amount), Cleared(l, amount).0, Cleared(l, amount).1)
  }

  /** A position whose debt is gone and whose collateral was dealt with. The recorded amount of
      collateral stays as it is. */
  function EndedPosition(p: Position, rate: nat): Position
    requires 0 <= Earned(ShareIn(p), rate)
  {
    p.(loan := p.loan.(principal := 0, interest := 0), phase := Ended, rewards := SettledRewards(p, rate, 0))
  }

  predicate CanClose(s: State, k: Id, held: nat) {
    && Active(s, k)
    && var p, c := s.positions[k], CollateralFor(s, k);
    && 0 < TotalOwed(p.loan) < U64 && TotalOwed(p.loan) <= held
    && CanBurn(s.pool, TotalOwed(p.loan), p.loan.interest)
    && CanSettle(p, s.rewardPerToken, 0) && p.collateral <= c.vault
  }

  function Closed(s: State, k: Id, held: nat): State
    requires CanClose(s, k, held)
  {
    var p, c := s.positions[k], CollateralFor(s, k);
    Put(Forgiven(s, p.loan.principal), k, EndedPosition(p, s.rewardPerToken))
      .(pool := Burned(s.pool, TotalOwed(p.loan), p.loan.interest),
        collaterals := s.collaterals[p.mint := Returned(c, p.collateral, p.collateral)])
  }

  // --- Liquidation ------------------------------------------------------------

  function RefundAt(s: State, k: Id, prices: Prices): nat
    requires Active(s, k) && 0 < prices.collateral
  {
    var p, c := s.positions[k], CollateralFor(s, k);
    Refund(CollateralUsd(p.collateral, prices.collateral, c.unit), DebtUsd(TotalOwed(p.loan), prices.sol),
           prices.collateral, c.unit)
  }

  predicate IsLiquidatable(s: State, k: Id, prices: Prices)
    requires Active(s, k)
  {
    var p, c := s.positions[k], CollateralFor(s, k);
    Liquidatable(CollateralUsd(p.collateral, prices.collateral, c.unit), DebtUsd(TotalOwed(p.loan), prices.sol),
                 c.terms.threshold)
  }

  /** How the swap's SOL is split: nothing is swapped if the refund is the whole collateral. */
  function ProceedsAt(s: State, k: Id, prices: Prices, sol: nat): Proceeds
    requires Active(s, k) && 0 < prices.collateral && CollateralFor(s, k).terms.penalty <= BPS
  {
    var p := s.positions[k];
    if p.collateral <= RefundAt(s, k, prices) then Proceeds(0, 0, 0)
    else SplitProceeds(sol, CollateralFor(s, k).terms.penalty,
                       Truncate64(InSol(p.loan.principal, s.pool.rate)),
                       Truncate64(InSol(p.loan.interest, s.pool.rate)))
  }

  predicate CanLiquidate(s: State, k: Id, prices: Prices, sol: nat, rent: nat) {
    && Active(s, k) && 0 < prices.sol
    && var p, c := s.positions[k], CollateralFor(s, k);
    && CanValueTokens(p.collateral, prices.collateral) && CanValueDebt(p.loan, prices.sol)
    && var usd := CollateralUsd(p.collateral, prices.collateral, c.unit);
    && var debtUsd := DebtUsd(TotalOwed(p.loan), prices.sol);
    && CanRate(usd, debtUsd, c.terms.threshold) && IsLiquidatable(s, k, prices)
    && SaturatingSub(usd, debtUsd) * c.unit < U128
    && p.loan.principal * s.pool.rate < U128 && p.loan.interest * s.pool.rate < U128
    && c.terms.penalty <= BPS && p.collateral <= c.vault
    && s.feeVault + sol + rent < U64 && s.pool.vault + ProceedsAt(s, k, prices, sol).principal < U64
    && CanSettle(p, s.rewardPerToken, 0)
  }

  /** What stays in the fee vault: fee and principal leave it again. */
  function KeptAt(s: State, k: Id, prices: Prices, sol: nat, rent: nat): nat
    requires CanLiquidate(s, k, prices, sol, rent)
  {
    if s.positions[k].collateral <= RefundAt(s, k, prices) then 0 else rent + ProceedsAt(s, k, prices, sol).interest
  }

  /** Refund and swap empty the position and clear its debt without a burn. */
  function EmptiedBy(s: State, k: Id, toPool: nat, kept: nat): State
    requires Active(s, k) && 0 <= Earned(ShareIn(s.positions[k]), s.rewardPerToken)
    requires s.positions[k].collateral <= CollateralFor(s, k).vault && s.pool.vault + toPool < U64
  {
    var p, c := s.positions[k], CollateralFor(s, k);
    Put(Forgiven(s, p.loan.principal), k, EndedPosition(p, s.rewardPerToken))
      .(unburned := s.unburned + p.loan.principal,
        collaterals := s.collaterals[p.mint := Returned(c, p.collateral, p.collateral)],
        pool := Pool.Apply(s.pool, Pool.TransferIn(toPool)),
        feeVault := s.feeVault + kept)
  }

  function Liquidated(s: State, k: Id, prices: Prices, sol: nat, rent: nat): State
    requires CanLiquidate(s, k, prices, sol, rent)
  {
    EmptiedBy(s, k, ProceedsAt(s, k, prices, sol).principal, KeptAt(s, k, prices, sol, rent))
  }

  // --- Claiming and seizing collateral ------------------------------------------

  /** SOL that the treasury spends on tokens missing from the vault. */
  predicate CanPriceShortfall(c: Collateral, tokens: nat, prices: Prices) {
    && CanValueTokens(tokens, prices.collateral) && 0 < prices.sol
    && CollateralUsd(tokens, prices.collateral, c.unit) * LAMPORTS_PER_SOL < U128
  }

  function TreasuryCost(c: Collateral, tokens: nat, prices: Prices): u64
    requires CanPriceShortfall(c, tokens, prices)
  {
    Truncate64(TokensInSol(tokens, prices.collateral, c.unit, prices.sol))
  }

  predicate CanClaim(s: State, k: Id, prices: Prices, rent: u64) {
    && k in s.positions && !s.positions[k].phase.Open? && s.positions[k].mint in s.collaterals
    && var p, c := s.positions[k], CollateralFor(s, k);
    && (c.vault < p.collateral ==>
          if 0 < p.buyback then p.buyback <= s.buybackVault
          else
            && CanPriceShortfall(c, Shortfall(p.collateral, c.vault), prices)
            && var cost := TreasuryCost(c, Shortfall(p.collateral, c.vault), prices);
            && s.buybackVault + cost < U64
            && (0 < cost ==> Gov.Accepts(s.gov, Gov.SpendReserve(cost, rent))))
  }

  /** Pays out what the vault has, and buys back the rest with SOL that was set aside or that the
      treasury spends. */
  datatype Claim = Claim(returned: Collateral, buybackVault: nat, gov: Gov.State)

  function ClaimOf(s: State, k: Id, prices: Prices, rent: u64): Claim
    requires CanClaim(s, k, prices, rent)
  {
    var p, c := s.positions[k], CollateralFor(s, k);
    var missing := Shortfall(p.collateral, c.vault);
    var d := Returned(c, Min(c.vault, p.collateral), p.collateral).(settled := c.settled + missing);
    if missing == 0 then Claim(d, s.buybackVault, s.gov)
    else if 0 < p.buyback then Claim(d, s.buybackVault - p.buyback, s.gov)
    else Claim(d, s.buybackVault, Gov.Step(s.gov, Gov.SpendReserve(TreasuryCost(c, missing, prices), rent)))
  }

  /** A claim closes the position and its rewards account. */
  function Claimed(s: State, k: Id, prices: Prices, rent: u64): State
    requires CanClaim(s, k, prices, rent)
  {
    var out := ClaimOf(s, k, prices, rent);
    s.(positions := s.positions - {k}, collaterals := s.collaterals[s.positions[k].mint := out.returned],
       buybackVault := out.buybackVault, gov := out.gov)
  }

  /** The tokens whose value covers the pool's liquidity shortfall. */
  function MaxSeizure(s: State, c: Collateral, prices: Prices): nat
    requires 0 < prices.collateral
  {
    var missing := SaturatingSub(s.pool.pending, s.pool.liquid);
    Truncate64(missing * prices.sol / LAMPORTS_PER_SOL * c.unit / prices.collateral)
  }

  predicate CanSeize(s: State, mint: Id, amount: nat, prices: Prices, sol: u64, rent: u64) {
    && mint in s.collaterals && s.pool.liquid < s.pool.pending && 0 < prices.sol && 0 < prices.collateral
    && var c, missing := s.collaterals[mint], SaturatingSub(s.pool.pending, s.pool.liquid);
    && missing * prices.sol < U128 && missing * prices.sol / LAMPORTS_PER_SOL * c.unit < U128
    && 0 < Min(amount, MaxSeizure(s, c, prices)) <= c.vault
    && s.pool.vault + sol + rent < U64
    && Pool.Accepts(Pool.Apply(s.pool, Pool.TransferIn(sol + rent)), Pool.ReceiveCdpLiquidity(sol))
  }

  function Seized(s: State, mint: Id, amount: nat, prices: Prices, sol: u64, rent: u64): State
    requires CanSeize(s, mint, amount, prices, sol, rent)
  {
    var c := s.collaterals[mint];
    var taken := Min(amount, MaxSeizure(s, c, prices));
    s.(collaterals := s.collaterals[mint := c.(vault := c.vault - taken, seized := c.seized + taken)],
       pool := Pool.Apply(Pool.Apply(s.pool, Pool.TransferIn(sol + rent)), Pool.ReceiveCdpLiquidity(sol)))
  }

  // --- Borrow rewards ---------------------------------------------------------

  function EmittedOver(perEpoch: nat, elapsed: nat, slotsPerEpoch: pos): nat { perEpoch * elapsed / slotsPerEpoch }

  function Emission(s: State, slot: nat): nat
    requires 0 < s.slotsPerEpoch
  {
    EmittedOver(s.epochEmissions, SaturatingSub(slot, s.lastCheckpoint), s.slotsPerEpoch)
  }

  predicate CanCheckpoint(s: State, slot: nat) {
    s.lastCheckpoint < slot && 0 < s.totalDebt ==>
      && 0 < s.slotsPerEpoch && Emission(s, slot) * REWARD_SCALE < U128
      && s.rewardPerToken + Emission(s, slot) * REWARD_SCALE / s.totalDebt < U128
  }

  function Checkpointed(s: State, slot: nat): State
    requires CanCheckpoint(s, slot)
  {
    if slot <= s.lastCheckpoint then s
    else if s.totalDebt == 0 then s.(lastCheckpoint := slot)
    else s.(lastCheckpoint := slot, emitted := s.emitted + Emission(s, slot),
            rewardPerToken := s.rewardPerToken + Emission(s, slot) * REWARD_SCALE / s.totalDebt)
  }

  predicate CanClaimRewards(s: State, k: Id) {
    && k in s.positions
    && var p := s.positions[k];
    && CanSettle(p, s.rewardPerToken, p.loan.principal)
    && var due := p.rewards.pending + Earned(ShareIn(p), s.rewardPerToken);
    && 0 < due <= s.rewardsVault && p.rewards.claimed + due < U64
  }

  function RewardsClaimed(s: State, k: Id): State
    requires CanClaimRewards(s, k)
  {
    var p := s.positions[k];
    var due := p.rewards.pending + Earned(ShareIn(p), s.rewardPerToken);
    s.(positions := s.positions[k := p.(rewards :=
         Rewards(Entitled(p.loan.principal, s.rewardPerToken), 0, p.rewards.claimed + due))],
       rewardsVault := s.rewardsVault - due, paid := s.paid + due)
  }

  // --- Fees -------------------------------------------------------------------

  function Sweepable(s: State, rent: nat): Fees { SplitCdpFees(SaturatingSub(s.feeVault, rent)) }

  /** The stakers' share is transferred to the pool and credited there, if it is positive. */
  predicate CanCredit(pool: Pool.State, share: nat) {
    pool.vault + share < U64
    && (0 < share ==> Pool.Accepts(Pool.Apply(pool, Pool.TransferIn(share)), Pool.CreditStakingRevenue(share)))
  }

  function Credited(pool: Pool.State, share: nat): Pool.State
    requires CanCredit(pool, share)
  {
    if share == 0 then pool
    else Pool.Apply(Pool.Apply(pool, Pool.TransferIn(share)), Pool.CreditStakingRevenue(share))
  }

  predicate CanCollectCdpFees(s: State, rent: nat) {
    rent < s.feeVault ==>
      && (s.feeVault - rent) * STAKING_SHARE_BPS < U64
      && CanCredit(s.pool, Sweepable(s, rent).staking)
      && Gov.CanDistribute(s.gov, Sweepable(s, rent).verise, Sweepable(s, rent).reserve)
  }

  function CdpFeesCollected(s: State, rent: nat): State
    requires CanCollectCdpFees(s, rent)
  {
    if s.feeVault <= rent then s
    else
      var fees := Sweepable(s, rent);
      s.(feeVault := rent, pool := Credited(s.pool, fees.staking),
         gov := Gov.Distributed(s.gov, fees.verise, fees.reserve))
  }

  /** `collect_fees` of rise-staking: sweep the pool's excess into the treasury. */
  predicate CanCollectFees(s: State, epoch: nat) {
    && s.gov.lastCollection < epoch && 0 <= Pool.Excess(s.pool)
    && var total: nat := Pool.Excess(s.pool);
    && (0 < total ==>
          && var team, verise := Cut(total, s.gov.teamBps), Cut(total, s.gov.veriseBps);
          && total < U64 && team + verise <= total && Gov.CanDistribute(s.gov, verise, total - team - verise))
  }

  function FeesCollected(s: State, epoch: nat): State
    requires CanCollectFees(s, epoch)
  {
    var total := Pool.Excess(s.pool);
    if total == 0 then s
    else
      var team, verise := Cut(total, s.gov.teamBps), Cut(total, s.gov.veriseBps);
      s.(pool := Pool.Apply(s.pool, Pool.CollectFees),
         gov := Gov.Distributed(s.gov, verise, total - team - verise).(lastCollection := epoch))
  }

  // --- Configuration, and the other programs' own instructions -------------------

  predicate ValidTerms(t: Terms) {
    && ValidLimits(t.maxLtv, t.threshold) && t.penalty <= 2_000 && t.curve.optimal <= BPS
    && t.curve.base <= 10_000 && t.curve.slope1 <= 20_000 && t.curve.slope2 <= 50_000
  }

  predicate AtMost(setting: Option<nat>, max: nat) { setting.Some? ==> setting.value <= max }

  function Updated(t: Terms, u: Update): Terms {
    Terms(u.maxLtv.GetOr(t.maxLtv), u.threshold.GetOr(t.threshold), u.penalty.GetOr(t.penalty),
          Curve(u.base.GetOr(t.curve.base), u.slope1.GetOr(t.curve.slope1),
                u.slope2.GetOr(t.curve.slope2), u.optimal.GetOr(t.curve.optimal)))
  }

  /** Each new setting is checked alone; threshold and loan-to-value also against each other. */
  predicate CanUpdate(t: Terms, u: Update) {
    && AtMost(u.maxLtv, 9_500) && AtMost(u.threshold, 9_800) && AtMost(u.penalty, 2_000)
    && Updated(t, u).maxLtv < Updated(t, u).threshold
    && AtMost(u.base, 10_000) && AtMost(u.slope1, 20_000) && AtMost(u.slope2, 50_000) && AtMost(u.optimal, BPS)
  }

  /** What an update checks is enough: valid terms stay valid, whatever is changed together. */
  lemma UpdateKeepsTerms(t: Terms, u: Update)
    requires ValidTerms(t)
    ensures CanUpdate(t, u) <==> ValidTerms(Updated(t, u))
  {
  }

  /** What anyone may ask of the pool; the rest is called by the CDP program. */
  predicate IsPublic(ix: Pool.Instruction) {
    ix.StakeSol? || ix.UnstakeRiseSol? || ix.ClaimUnstake? || ix.UpdateExchangeRate?
    || ix.CreditStakingRevenue? || ix.ReceiveCdpLiquidity? || ix.TransferIn?
  }

  /** Spending the reserve directly, `withdraw_reserve`, is limited by the treasury's own counter. */
  predicate IsOwn(gov: Gov.State, ix: Gov.Instruction) {
    !ix.Distribute? && (ix.SpendReserve? ==> ix.lamports <= gov.reserve)
  }

  // --- The machine ------------------------------------------------------------

  /** Instructions on one open (or new) position; the rest concerns the protocol. */
  predicate OnPosition(ix: Instruction) {
    ix.OpenPosition? || ix.BorrowMore? || ix.AddCollateral? || ix.WithdrawExcess? || ix.AccrueInterest?
    || ix.RepayDebt? || ix.RepayDebtSpl? || ix.RepayDebtRiseSol? || ix.ClosePosition? || ix.Liquidate?
  }

  predicate AcceptsOnPosition(s: State, ix: Instruction)
    requires OnPosition(ix)
  {
    match ix
    case OpenPosition(k, mint, tokens, amount, held, prices, _) => CanOpen(s, k, mint, tokens, amount, held, prices)
    case BorrowMore(k, amount, prices, slot) => CanBorrow(s, k, amount, prices, slot)
    case AddCollateral(k, amount, held, prices) => CanAdd(s, k, amount, held, prices)
    case WithdrawExcess(k, amount, prices, slot) => CanWithdrawAt(s, k, amount, prices, slot)
    case AccrueInterest(k, slot) => CanAccrueAt(s, k, slot)
    case RepayDebt(k, lamports, held, prices, slot) => CanRepay(s, k, lamports, held, prices, slot)
    case RepayDebtSpl(k, sol, rent, prices, slot) => CanRepaySpl(s, k, sol, rent, prices, slot)
    case RepayDebtRiseSol(k, amount, held, slot) => CanRepayRiseSol(s, k, amount, held, slot)
    case ClosePosition(k, held) => CanClose(s, k, held)
    case Liquidate(k, prices, sol, rent) => CanLiquidate(s, k, prices, sol, rent)
  }

  function ApplyOnPosition(s: State, ix: Instruction): State
    requires OnPosition(ix) && AcceptsOnPosition(s, ix)
  {
    match ix
    case OpenPosition(k, mint, tokens, amount, _, prices, slot) => Opened(s, k, mint, tokens, amount, prices, slot)
    case BorrowMore(k, amount, prices, slot) => Borrowed(s, k, amount, prices, slot)
    case AddCollateral(k, amount, _, prices) => Added(s, k, amount, prices)
    case WithdrawExcess(k, amount, prices, slot) => Withdrawn(s, k, amount, prices, slot)
    case AccrueInterest(k, slot) => CrankedAt(s, k, slot)
    case RepayDebt(k, lamports, held, prices, slot) => RepaidBy(s, k, lamports, held, prices, slot)
    case RepayDebtSpl(k, sol, rent, prices, slot) => RepaidSpl(s, k, sol, rent, prices, slot)
    case RepayDebtRiseSol(k, amount, held, slot) => RepaidRiseSol(s, k, amount, held, slot)
    case ClosePosition(k, held) => Closed(s, k, held)
    case Liquidate(k, prices, sol, rent) => Liquidated(s, k, prices, sol, rent)
  }

  predicate AcceptsOnProtocol(s: State, ix: Instruction)
    requires !OnPosition(ix)
  {
    match ix
    case ClaimCollateral(k, prices, rent) => CanClaim(s, k, prices, rent)
    case RedeemCollateral(mint, amount, prices, sol, rent) => CanSeize(s, mint, amount, prices, sol, rent)
    case CheckpointBorrowRewards(slot) => CanCheckpoint(s, slot)
    case ClaimBorrowRewards(k) => CanClaimRewards(s, k)
    case FundBorrowRewards(amount) => s.rewardsVault + amount < U64
    case CollectCdpFees(rent) => CanCollectCdpFees(s, rent)
    case CollectFees(epoch) => CanCollectFees(s, epoch)
    case UpdateDebtCeiling(bps) => 0 < bps < U32
    case InitializeCollateral(mint, terms, _) =>
      mint !in s.collaterals && ValidTerms(terms) && 0 < terms.curve.optimal < BPS
    case UpdateCollateral(mint, update) => mint in s.collaterals && CanUpdate(s.collaterals[mint].terms, update)
    case PoolInstruction(own) => IsPublic(own) && Pool.Accepts(s.pool, own)
    case GovernanceInstruction(own) => IsOwn(s.gov, own) && Gov.Accepts(s.gov, own)
  }

  function ApplyOnProtocol(s: State, ix: Instruction): State
    requires !OnPosition(ix) && AcceptsOnProtocol(s, ix)
  {
    match ix
    case ClaimCollateral(k, prices, rent) => Claimed(s, k, prices, rent)
    case RedeemCollateral(mint, amount, prices, sol, rent) => Seized(s, mint, amount, prices, sol, rent)
    case CheckpointBorrowRewards(slot) => Checkpointed(s, slot)
    case ClaimBorrowRewards(k) => RewardsClaimed(s, k)
    case FundBorrowRewards(amount) => s.(rewardsVault := s.rewardsVault + amount)
    case CollectCdpFees(rent) => CdpFeesCollected(s, rent)
    case CollectFees(epoch) => FeesCollected(s, epoch)
    case UpdateDebtCeiling(bps) => s.(multiplierBps := bps)
    case InitializeCollateral(mint, terms, unit) =>
      s.(collaterals := s.collaterals[mint := Collateral(true, terms, unit, 0, 0, 0, 0)])
    case UpdateCollateral(mint, update) =>
      var c := s.collaterals[mint];
      s.(collaterals := s.collaterals[mint :=
           c.(active := update.active.GetOr(c.active), terms := Updated(c.terms, update))])
    case PoolInstruction(own) => s.(pool := Pool.Apply(s.pool, own))
    case GovernanceInstruction(own) => s.(gov := Gov.Apply(s.gov, own))
  }

  predicate Accepts(s: State, ix: Instruction) {
    if OnPosition(ix) then AcceptsOnPosition(s, ix) else AcceptsOnProtocol(s, ix)
  }

  function Apply(s: State, ix: Instruction): State
    requires Accepts(s, ix)
  {
    if OnPosition(ix) then ApplyOnPosition(s, ix) else ApplyOnProtocol(s, ix)
  }

  function Step(s: State, ix: Instruction): State {
    if Accepts(s, ix) then Apply(s, ix) else s
  }

  function Run(s: State, ixs: seq<Instruction>): State
    decreases |ixs|
  {
    if ixs == [] then s else Run(Step(s, ixs[0]), ixs[1..])
  }
}
