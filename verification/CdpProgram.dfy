/** The handlers of rise-cdp, statement by statement, on the accounts they are given.

    A handler works on copies of the accounts (its out-parameters); the instruction writes them
    back when the handler ends well. The accounts of the other programs are values here, and a call
    into a program is the step that its own handlers were proved to take. */
module CdpProgram {
  import opened Arithmetic
  import opened MapSums
  import opened Accumulator
  import opened Interest
  import opened Risk
  import opened Settlement
  import opened Cdp
  import opened CdpInvariants
  import opened CdpSteps
  import opened CdpCustody
  import opened CdpAmounts
  import opened CdpClearingAmounts
  import Pool = StakingPool
  import Gov = Governance

  const NO_POSITION := Position(0, 0, Loan(0, 0, 0), Ended, 0, Rewards(0, 0, 0), 0, 0)
  const NO_TERMS := Terms(0, 0, 0, Curve(0, 0, 0, 0))
  const NO_COLLATERAL := Collateral(false, NO_TERMS, 1, 0, 0, 0, 0)

  class Program {
    // CdpConfig and BorrowRewardsConfig
    var minted: nat
    var multiplierBps: nat
    var rewardPerToken: nat
    var epochEmissions: nat
    var slotsPerEpoch: nat
    var totalDebt: nat
    var lastCheckpoint: nat
    // CollateralConfig and CdpPosition accounts
    var collaterals: map<Id, Collateral>
    var positions: map<Id, Position>
    // vaults
    var feeVault: nat
    var buybackVault: nat
    var rewardsVault: nat
    // accounts of the other programs
    var pool: Pool.State
    var gov: Gov.State
    // history
    ghost var unburned: nat
    ghost var emitted: nat
    ghost var paid: nat
    ghost var changes: nat
    ghost var startSlot: nat

    ghost function Accounts(): State reads this {
      State(minted, multiplierBps, rewardPerToken, epochEmissions, slotsPerEpoch, totalDebt, lastCheckpoint,
            collaterals, positions, feeVault, buybackVault, rewardsVault, pool, gov,
            unburned, emitted, paid, changes, startSlot)
    }

    ghost predicate Valid() reads this { Inv(Accounts()) }

    /** `initialize_cdp_config` and `initialize_borrow_rewards`, beside a new pool and treasury. */
    constructor (bps: u64, emissions: u64, slots: u64, slot: u64, newPool: Pool.State, newGov: Gov.State)
      requires 0 < bps < U32 && 0 < emissions && 0 < slots
      requires newPool == Pool.Genesis(newPool.feeBps, newPool.lastRateEpoch, newPool.vault)
      requires newPool.feeBps <= BPS && newPool.vault < U64
      requires newGov == Gov.Genesis(newGov.teamBps, newGov.veriseBps, newGov.lastCollection)
      ensures Initial(Accounts()) && Valid() && Custody(Accounts())
      ensures Accounts() == Genesis(bps, emissions, slots, slot, newPool, newGov)
    {
      minted, multiplierBps, rewardPerToken, epochEmissions := 0, bps, 0, emissions;
      slotsPerEpoch, totalDebt, lastCheckpoint := slots, 0, slot;
      collaterals, positions := map[], map[];
      feeVault, buybackVault, rewardsVault, pool, gov := 0, 0, 0, newPool, newGov;
      unburned, emitted, paid, changes, startSlot := 0, 0, 0, 0, slot;
      new;
      InitialInv(Accounts());
    }

    /** The magnitudes that the 128-bit operations rely on. */
    ghost predicate Fits() reads this {
      pool.stakingSupply < U64 && minted < U64 && totalDebt < U64 && multiplierBps < U32 && 0 < pool.rate
    }

    /** What the handlers rely on for one position. */
    ghost predicate Ready(k: Id) reads this {
      && Fits()
      && (k in positions ==>
            && Sane(positions[k]) && positions[k].loan.principal < U64
            && 0 <= Earned(ShareIn(positions[k]), rewardPerToken)
            && positions[k].mint in collaterals && Listed(collaterals[positions[k].mint]))
    }

    // --- Interest -------------------------------------------------------------------

    /** The kinked rate at the current utilization: in the configured ranges nothing overflows. */
    method EffectiveRate(curve: Curve) returns (r: Outcome, rateBps: nat)
      requires Fits() && curve.optimal <= BPS
      requires curve.base <= 10_000 && curve.slope1 <= 20_000 && curve.slope2 <= 50_000
      ensures r.Done? && rateBps == BorrowRate(Accounts(), curve)
      ensures rateBps <= 80_000
    {
      rateBps := 0;
      RateBand(curve, Utilization(minted, CeilingNow(Accounts())));
      MulMonotone(pool.stakingSupply, U64 - 1, multiplierBps);
      var product :- Mul128(pool.stakingSupply, multiplierBps);
      var ceiling := product / 10_000;
      var utilization := 10_000;
      if ceiling != 0 {
        var scaled :- Mul128(minted, 10_000);
        var quotient :- CheckedDiv(scaled, ceiling);
        utilization := Min(quotient, 10_000);
      }
      r, rateBps := RateAt(curve, utilization);
    }

    method RateAt(curve: Curve, utilization: nat) returns (r: Outcome, rateBps: nat)
      requires utilization <= BPS && curve.optimal <= BPS
      requires curve.base <= 10_000 && curve.slope1 <= 20_000 && curve.slope2 <= 50_000
      ensures r.Done? && rateBps == RateBps(curve, utilization)
    {
      rateBps := 0;
      if utilization <= curve.optimal {
        var contribution := 0;
        if curve.optimal != 0 {
          MulMonotone(utilization, BPS, curve.slope1);
          var product :- Mul128(curve.slope1, utilization);
          contribution :- CheckedDiv(product, curve.optimal);
        }
        BelowKink(curve, utilization);
        rateBps :- Add128(curve.base, contribution);
      } else {
        var excess :- CheckedSub(utilization, curve.optimal);
        var range :- CheckedSub(10_000, curve.optimal);
        var contribution := curve.slope2;
        if range != 0 {
          MulMonotone(excess, BPS, curve.slope2);
          var product :- Mul128(curve.slope2, excess);
          contribution :- CheckedDiv(product, range);
        }
        AboveKink(curve, utilization);
        var kink :- Add128(curve.base, curve.slope1);
        rateBps :- Add128(kink, contribution);
      }
      r := Done;
    }

    method InterestDue(principal: nat, rateBps: nat, slots: nat) returns (r: Outcome, due: nat)
      requires principal < U64 && rateBps <= 80_000
      ensures r.Done? <==> principal * rateBps * slots < U128 && InterestFor(principal, rateBps, slots) < U64
      ensures r.Done? ==> due == InterestFor(principal, rateBps, slots) && IsInterest(due, principal, rateBps, slots)
    {
      due := 0;
      InterestIs(principal, rateBps, slots);
      MulMonotone(principal, U64 - 1, rateBps);
      var yearly :- Mul128(principal, rateBps);
      var product :- Mul128(yearly, slots);
      due :- Narrow64(product / 10_000 / SLOTS_PER_YEAR);
      r := Done;
    }

    /** `accrue_interest` as the handlers of `borrow_more`, `withdraw_excess` and the repayments
        have it: the slot stays where it is while the interest rounds to zero. */
    method Accrue(l: Loan, curve: Curve, slot: nat) returns (r: Outcome, m: Loan)
      requires Fits() && curve.optimal <= BPS
      requires curve.base <= 10_000 && curve.slope1 <= 20_000 && curve.slope2 <= 50_000
      requires l.principal < U64 && l.interest < U64
      ensures r.Done? <==> CanAccrue(l, BorrowRate(Accounts(), curve), slot)
      ensures r.Done? ==> m == Accrued(l, BorrowRate(Accounts(), curve), slot)
    {
      m := l;
      if slot > l.lastSlot && l.principal > 0 {
        var rateBps, due;
        r, rateBps := EffectiveRate(curve);
        r, due := InterestDue(l.principal, rateBps, slot - l.lastSlot);
        if r.Failed? { return; }
        if due > 0 {
          var interest :- Add64(l.interest, due);
          m := l.(interest := interest, lastSlot := slot);
        }
      }
      r := Done;
    }

    // --- Borrow rewards, prices and health ------------------------------------------------

    /** `BorrowRewards::settle`, then `sync_debt` for the new principal. */
    method Settle(p: Position, principal: nat) returns (r: Outcome, rewards: Rewards)
      requires 0 <= Earned(ShareIn(p), rewardPerToken)
      ensures r.Done? <==> CanSettle(p, rewardPerToken, principal)
      ensures r.Done? ==> rewards == SettledRewards(p, rewardPerToken, principal)
    {
      rewards := p.rewards;
      var product :- Mul128(p.loan.principal, rewardPerToken);
      var difference :- CheckedSub(product / REWARD_SCALE, p.rewards.debt);
      var earned :- Narrow64(difference);
      var pending :- Add64(p.rewards.pending, earned);
      var synced :- Mul128(principal, rewardPerToken);
      rewards := Rewards(synced / REWARD_SCALE, pending, p.rewards.claimed);
      r := Done;
    }

    method ValueTokens(tokens: nat, price: nat, unit: pos) returns (r: Outcome, usd: nat)
      ensures r.Done? <==> CanValueTokens(tokens, price)
      ensures r.Done? ==> usd == CollateralUsd(tokens, price, unit)
    {
      usd := 0;
      :- Require(price > 0, InvalidOraclePrice);
      var product :- Mul128(tokens, price);
      usd :- CheckedDiv(product, unit);
      r := Done;
    }

    method ValueLamports(lamports: nat, solPrice: nat) returns (r: Outcome, usd: nat)
      ensures r.Done? <==> 0 < solPrice && lamports * solPrice < U128
      ensures r.Done? ==> usd == DebtUsd(lamports, solPrice)
    {
      usd := 0;
      :- Require(solPrice > 0, InvalidOraclePrice);
      var product :- Mul128(lamports, solPrice);
      usd := product / 1_000_000_000;
      r := Done;
    }

    method ValueDebt(l: Loan, solPrice: nat) returns (r: Outcome, usd: nat)
      ensures r.Done? <==> CanValueDebt(l, solPrice)
      ensures r.Done? ==> usd == DebtUsd(TotalOwed(l), solPrice)
    {
      usd := 0;
      var owed :- Add64(l.principal, l.interest);
      r, usd := ValueLamports(owed, solPrice);
    }

    /** `compute_health_factor`. */
    method Health(collateralUsd: nat, debtUsd: nat, threshold: nat) returns (r: Outcome, factor: nat)
      ensures r.Done? <==> CanRate(collateralUsd, debtUsd, threshold)
      ensures r.Done? ==> factor == HealthFactor(collateralUsd, debtUsd, threshold)
    {
      if debtUsd == 0 { return Done, U128 - 1; }
      factor := 0;
      var product :- Mul128(collateralUsd, threshold);
      var scaled :- Mul128(product / 10_000, HEALTH_SCALE);
      factor :- CheckedDiv(scaled, debtUsd);
      r := Done;
    }

    /** The account constraints of an open position. */
    method Load(k: Id) returns (r: Outcome, p: Position, c: Collateral)
      ensures r.Done? <==> Active(Accounts(), k)
      ensures r.Done? ==> p == positions[k] && c == CollateralFor(Accounts(), k)
      ensures k in positions && !positions[k].phase.Open? ==> r == Failed(PositionClosed)
    {
      p, c := NO_POSITION, NO_COLLATERAL;
      :- Require(k in positions, AccountMissing);
      p := positions[k];
      :- Require(p.phase.Open?, PositionClosed);
      :- Require(p.mint in collaterals, AccountMissing);
      c := collaterals[p.mint];
      r := Done;
    }

    method Write(k: Id, p: Position)
      modifies this
      ensures Accounts() == old(Put(Accounts(), k, p))
    {
      changes := changes + if p.loan.principal == PrincipalAt(Accounts(), k) then 0 else 1;
      positions := positions[k := p];
    }

    /** Writes a position whose principal was reduced, and takes that off both counters. */
    method WriteReduced(k: Id, p: Position, principal: nat)
      modifies this
      ensures Accounts() == old(Put(Forgiven(Accounts(), principal), k, p))
    {
      minted, totalDebt := SaturatingSub(minted, principal), SaturatingSub(totalDebt, principal);
      Write(k, p);
    }

    // --- open_position, borrow_more -------------------------------------------------------

    /** The ceiling on all debt, and the cap on one loan. */
    method CheckCeiling(amount: nat, principal: nat) returns (r: Outcome)
      requires Fits() && amount < U64
      ensures r.Done? <==> CanLend(Accounts(), amount, principal)
      ensures CeilingNow(Accounts()) < minted + amount ==> r == Failed(DebtCeilingExceeded)
      ensures minted + amount <= CeilingNow(Accounts()) && !CanLend(Accounts(), amount, principal) ==>
        r == Failed(ExceedsSingleLoanCap)
    {
      MulMonotone(pool.stakingSupply, U64 - 1, multiplierBps);
      var product :- Mul128(pool.stakingSupply, multiplierBps);
      var ceiling := product / 10_000;
      var newMinted :- Add128(minted, amount);
      :- Require(newMinted <= ceiling, DebtCeilingExceeded);
      var scaled :- Mul128(ceiling, 500);
      r := Require(principal <= scaled / 10_000, ExceedsSingleLoanCap);
    }

    method CheckMint(amount: u64) returns (r: Outcome)
      ensures r.Done? <==> CanMint(Accounts(), amount)
    {
      var debt :- Add64(totalDebt, amount);
      r := Require(Pool.Accepts(pool, Pool.MintForCdp(amount)), TransferFailed);
    }

    method OpenHandler(k: Id, mint: Id, tokens: u64, amount: u64, held: u64, prices: Prices, slot: u64)
      returns (r: Outcome, p: Position)
      requires Fits()
      ensures r.Done? <==> CanOpen(Accounts(), k, mint, tokens, amount, held, prices)
      ensures r.Done? ==> p == OpenedPosition(Accounts(), mint, tokens, amount, prices, slot)
      ensures k !in positions && mint in collaterals && !collaterals[mint].active ==> r == Failed(CollateralNotAccepted)
    {
      p := NO_POSITION;
      :- Require(k !in positions, AccountInUse);
      :- Require(mint in collaterals, AccountMissing);
      var c := collaterals[mint];
      :- Require(c.active, CollateralNotAccepted);
      :- Require(tokens > 0, ZeroAmount);
      :- Require(amount > 0, ZeroAmount);
      var usd, debtUsd, factor;
      r, usd := ValueTokens(tokens, prices.collateral, c.unit);
      if r.Failed? { return; }
      :- Require(prices.sol > 0, InvalidOraclePrice);
      var limit :- Mul128(usd, c.terms.maxLtv);
      var lamports :- Mul128(limit / 10_000, 1_000_000_000);
      :- Require(amount <= lamports / prices.sol, ExceedsMaxLtv);
      r := CheckCeiling(amount, amount);
      if r.Failed? { return; }
      var entitlements :- Add64(c.entitlements, tokens);
      :- Require(tokens <= held && c.vault + tokens < U64, TransferFailed);
      r, debtUsd := ValueLamports(amount, prices.sol);
      if r.Failed? { return; }
      r, factor := Health(usd, debtUsd, c.terms.threshold);
      if r.Failed? { return; }
      var synced :- Mul128(amount, rewardPerToken);
      p := Position(mint, tokens, Loan(amount, 0, slot), Open, 0, Rewards(synced / REWARD_SCALE, 0, 0), usd, factor);
      r := CheckMint(amount);
    }

    method Lend(amount: u64)
      requires CanMint(Accounts(), amount)
      modifies this
      ensures Accounts() == old(Lent(Accounts(), amount))
    {
      minted, totalDebt := minted + amount, totalDebt + amount;
      pool := Pool.Apply(pool, Pool.MintForCdp(amount));
    }

    method OpenPosition(k: Id, mint: Id, tokens: u64, amount: u64, held: u64, prices: Prices, slot: u64)
      returns (r: Outcome)
      requires Fits()
      modifies this
      ensures r.Done? <==> old(CanOpen(Accounts(), k, mint, tokens, amount, held, prices))
      ensures Accounts()
           == old(if r.Done? then Opened(Accounts(), k, mint, tokens, amount, prices, slot) else Accounts())
    {
      var p;
      r, p := OpenHandler(k, mint, tokens, amount, held, prices, slot);
      if r.Failed? { return; }
      Lend(amount);
      collaterals := collaterals[mint := Deposited(collaterals[mint], tokens)];
      Write(k, p);
    }

    method BorrowHandler(k: Id, amount: u64, prices: Prices, slot: u64) returns (r: Outcome, q: Position)
      requires Ready(k)
      ensures r.Done? <==> CanBorrow(Accounts(), k, amount, prices, slot)
      ensures r.Done? ==> q == BorrowedPosition(Accounts(), k, amount, prices, slot)
      ensures r.Done? ==>
        DebtUsd(InSol(TotalOwed(q.loan), pool.rate), prices.sol) * 10_000
          <= q.collateralUsd * CollateralFor(Accounts(), k).terms.maxLtv
      ensures k in positions && !positions[k].phase.Open? ==> r == Failed(PositionClosed)
    {
      var c, l, usd, debtUsd, rewards, factor;
      r, q, c := Load(k);
      if r.Failed? { return; }
      :- Require(amount > 0, ZeroAmount);
      r, l := Accrue(q.loan, c.terms.curve, slot);
      if r.Failed? { return; }
      r, usd := ValueTokens(q.collateral, prices.collateral, c.unit);
      if r.Failed? { return; }
      var owed :- Add64(l.principal, l.interest);
      var total :- Add64(owed, amount);
      var product :- Mul128(total, pool.rate);
      r, debtUsd := ValueLamports(product / Pool.RATE_SCALE, prices.sol);
      if r.Failed? { return; }
      var limit :- Mul128(usd, c.terms.maxLtv);
      :- Require(debtUsd <= limit / 10_000, ExceedsMaxLtv);
      var principal :- Add64(l.principal, amount);
      r := CheckCeiling(amount, principal);
      if r.Failed? { return; }
      r, rewards := Settle(q, principal);
      if r.Failed? { return; }
      r, factor := Health(usd, debtUsd, c.terms.threshold);
      if r.Failed? { return; }
      q := q.(loan := l.(principal := principal), rewards := rewards, collateralUsd := usd, health := factor);
      r := CheckMint(amount);
      if r.Done? { BorrowedWithinLtv(Accounts(), k, amount, prices, slot); }
    }

    method BorrowMore(k: Id, amount: u64, prices: Prices, slot: u64) returns (r: Outcome)
      requires Ready(k)
      modifies this
      ensures r.Done? <==> old(CanBorrow(Accounts(), k, amount, prices, slot))
      ensures Accounts() == old(if r.Done? then Borrowed(Accounts(), k, amount, prices, slot) else Accounts())
    {
      var q;
      r, q := BorrowHandler(k, amount, prices, slot);
      if r.Failed? { return; }
      Lend(amount);
      Write(k, q);
    }

    // --- add_collateral, withdraw_excess, accrue_interest -----------------------------------

    method AddHandler(k: Id, amount: u64, held: u64, prices: Prices) returns (r: Outcome, q: Position, d: Collateral)
      ensures r.Done? <==> CanAdd(Accounts(), k, amount, held, prices)
      ensures r.Done? ==>
        var p, c := positions[k], CollateralFor(Accounts(), k);
        q == Recollateralized(p, c, p.loan, p.collateral + amount, prices) && d == Deposited(c, amount)
    {
      var usd, debtUsd, factor;
      r, q, d := Load(k);
      if r.Failed? { return; }
      :- Require(amount > 0, ZeroAmount);
      var entitlements :- Add64(d.entitlements, amount);
      :- Require(amount <= held && d.vault + amount < U64, TransferFailed);
      d := d.(entitlements := entitlements, vault := d.vault + amount);
      var tokens :- Add64(q.collateral, amount);
      r, usd := ValueTokens(tokens, prices.collateral, d.unit);
      if r.Failed? { return; }
      r, debtUsd := ValueDebt(q.loan, prices.sol);
      if r.Failed? { return; }
      r, factor := Health(usd, debtUsd, d.terms.threshold);
      if r.Failed? { return; }
      q := q.(collateral := tokens, collateralUsd := usd, health := factor);
    }

    method AddCollateral(k: Id, amount: u64, held: u64, prices: Prices) returns (r: Outcome)
      modifies this
      ensures r.Done? <==> old(CanAdd(Accounts(), k, amount, held, prices))
      ensures Accounts() == old(if r.Done? then Added(Accounts(), k, amount, prices) else Accounts())
    {
      var q, d;
      r, q, d := AddHandler(k, amount, held, prices);
      if r.Failed? { return; }
      collaterals := collaterals[q.mint := d];
      Write(k, q);
    }

    /** The requirement of `withdraw_excess`: 80% of the maximum loan-to-value must remain. */
    method CheckExcess(p: Position, c: Collateral, amount: u64, price: nat, usd: nat, debtUsd: nat) returns (r: Outcome)
      requires CanValueTokens(p.collateral, price) && usd == CollateralUsd(p.collateral, price, c.unit)
      requires c.terms.maxLtv <= 9_500 && 0 < amount
      ensures r.Done? ==> SafeLtvBps(c.terms.maxLtv) > 0
      ensures r.Done? && amount <= p.collateral ==>
        debtUsd * BPS < U128 && CanWithdraw(p.collateral, amount, price, c.unit, debtUsd, c.terms.maxLtv)
      ensures debtUsd * BPS < U128 && CanWithdraw(p.collateral, amount, price, c.unit, debtUsd, c.terms.maxLtv) ==>
        r.Done?
    {
      var safe := c.terms.maxLtv * 80 / 100;
      var product :- Mul128(debtUsd, 10_000);
      var required :- CheckedDiv(product, safe);
      :- Require(usd > required, InsufficientExcess);
      var excess :- CheckedSub(usd, required);
      if amount <= p.collateral { MulMonotone(amount, p.collateral, price); }
      var scaled :- Mul128(amount, price);
      r := Require(scaled / c.unit <= excess, InsufficientExcess);
    }

    method WithdrawHandler(k: Id, amount: u64, prices: Prices, slot: u64)
      returns (r: Outcome, q: Position, d: Collateral)
      requires Ready(k)
      ensures r.Done? <==> CanWithdrawAt(Accounts(), k, amount, prices, slot)
      ensures r.Done? ==>
        var p, c := positions[k], CollateralFor(Accounts(), k);
        && q == Recollateralized(p, c, LoanAt(Accounts(), k, slot), p.collateral - amount, prices)
        && d == Returned(c, amount, amount)
    {
      var l, usd, debtUsd, factor;
      r, q, d := Load(k);
      if r.Failed? { return; }
      :- Require(amount > 0, ZeroAmount);
      r, l := Accrue(q.loan, d.terms.curve, slot);
      if r.Failed? { return; }
      r, usd := ValueTokens(q.collateral, prices.collateral, d.unit);
      if r.Failed? { return; }
      r, debtUsd := ValueDebt(l, prices.sol);
      if r.Failed? { return; }
      r := CheckExcess(q, d, amount, prices.collateral, usd, debtUsd);
      if r.Failed? { return; }
      :- Require(amount <= d.vault, TransferFailed);
      var tokens :- CheckedSub(q.collateral, amount);
      MulMonotone(tokens, q.collateral, prices.collateral);
      r, usd := ValueTokens(tokens, prices.collateral, d.unit);
      r, factor := Health(usd, debtUsd, d.terms.threshold);
      if r.Failed? { return; }
      d := d.(vault := d.vault - amount, entitlements := SaturatingSub(d.entitlements, amount));
      q := q.(loan := l, collateral := tokens, collateralUsd := usd, health := factor);
    }

    method WithdrawExcess(k: Id, amount: u64, prices: Prices, slot: u64) returns (r: Outcome)
      requires Ready(k)
      modifies this
      ensures r.Done? <==> old(CanWithdrawAt(Accounts(), k, amount, prices, slot))
      ensures Accounts() == old(if r.Done? then Withdrawn(Accounts(), k, amount, prices, slot) else Accounts())
    {
      var q, d;
      r, q, d := WithdrawHandler(k, amount, prices, slot);
      if r.Failed? { return; }
      collaterals := collaterals[q.mint := d];
      Write(k, q);
    }

    /** The crank: unlike the handlers' own accrual it moves the slot even when no interest is due. */
    method CrankHandler(k: Id, slot: u64) returns (r: Outcome, q: Position)
      requires Ready(k)
      ensures r.Done? <==> CanAccrueAt(Accounts(), k, slot)
      ensures r.Done? ==>
        var rateBps := BorrowRate(Accounts(), CollateralFor(Accounts(), k).terms.curve);
        && q == positions[k].(loan := Cranked(positions[k].loan, rateBps, slot))
        && (positions[k].loan.lastSlot < slot ==>
              IsInterest(q.loan.interest - positions[k].loan.interest, q.loan.principal, rateBps,
                         slot - positions[k].loan.lastSlot))
    {
      var c, rateBps, due;
      r, q, c := Load(k);
      if r.Failed? { return; }
      if slot <= q.loan.lastSlot { return; }
      r, rateBps := EffectiveRate(c.terms.curve);
      r, due := InterestDue(q.loan.principal, rateBps, slot - q.loan.lastSlot);
      if r.Failed? { return; }
      var interest :- Add64(q.loan.interest, due);
      q := q.(loan := q.loan.(interest := interest, lastSlot := slot));
    }

    method AccrueInterest(k: Id, slot: u64) returns (r: Outcome)
      requires Ready(k)
      modifies this
      ensures r.Done? <==> old(CanAccrueAt(Accounts(), k, slot))
      ensures Accounts() == old(if r.Done? then CrankedAt(Accounts(), k, slot) else Accounts())
    {
      var q;
      r, q := CrankHandler(k, slot);
      if r.Done? { Write(k, q); }
    }

    // --- repay_debt, repay_debt_spl ------------------------------------------------------------

    /** Interest first, then principal. */
    method Clear(l: Loan, payment: nat) returns (r: Outcome, after: Loan, interest: nat, principal: nat)
      requires TotalOwed(l) < U64
      ensures r.Done? <==> 0 < TotalOwed(l)
      ensures r.Done? ==> (interest, principal) == Cleared(l, payment) && after == Repaid(l, payment)
    {
      after, interest, principal := l, 0, 0;
      var owed :- Add64(l.principal, l.interest);
      :- Require(owed > 0, ZeroAmount);
      var cleared := Min(payment, owed);
      if cleared <= l.interest {
        interest := cleared;
      } else {
        principal :- CheckedSub(cleared, l.interest);
        interest := l.interest;
      }
      var interestLeft :- CheckedSub(l.interest, interest);
      var principalLeft :- CheckedSub(l.principal, principal);
      after := l.(interest := interestLeft, principal := principalLeft);
      r := Done;
    }

    /** A riseSOL amount at the exchange rate, cast to 64 bits. */
    method InLamports(riseSol: nat) returns (r: Outcome, sol: u64)
      ensures r.Done? <==> riseSol * pool.rate < U128
      ensures r.Done? ==> sol == Truncate64(InSol(riseSol, pool.rate))
    {
      sol := 0;
      var product :- Mul128(riseSol, pool.rate);
      sol := Truncate64(product / Pool.RATE_SCALE);
      r := Done;
    }

    /** No product of a repayment overflows, and its casts lose nothing. */
    lemma PaymentsFit(l: Loan, lamports: u64, rate: nat)
      requires 0 < rate
      ensures var (interest, principal) := Cleared(l, InRiseSol(lamports, rate));
        && interest * rate < U128 && (interest + principal) * rate < U128
        && InSol(interest, rate) <= InSol(interest + principal, rate) < U64
    {
      var (interest, principal) := Cleared(l, InRiseSol(lamports, rate));
      WaterfallConserves(l, lamports, rate);
      WaterfallMonotone(interest, principal, rate);
      FloorBounds(lamports * Pool.RATE_SCALE, rate);
      MulMonotone(interest, interest + principal, rate);
      MulMonotone(interest + principal, InRiseSol(lamports, rate), rate);
    }

    /** `settle_repayment` after its settlement: in a pool whose rate is positive neither cast nor
        saturation loses anything. */
    method SettleRepayment(l: Loan, lamports: u64) returns (r: Outcome, after: Loan, w: Waterfall)
      requires 0 < pool.rate && TotalOwed(l) < U64
      ensures r.Done? <==> 0 < InRiseSol(lamports, pool.rate) < U64 && 0 < TotalOwed(l)
      ensures r.Done? ==> after == Repaid(l, InRiseSol(lamports, pool.rate)) && w == Repay(l, lamports, pool.rate)
    {
      after, w := l, Waterfall(0, 0, 0, 0);
      var interest, principal;
      var product :- Mul128(lamports, Pool.RATE_SCALE);
      var quotient :- CheckedDiv(product, pool.rate);
      var payment :- Narrow64(quotient);
      :- Require(payment > 0, ZeroAmount);
      r, after, interest, principal := Clear(l, payment);
      if r.Failed? { return; }
      PaymentsFit(l, lamports, pool.rate);
      var interestSol, clearedSol;
      r, interestSol := InLamports(interest);
      r, clearedSol := InLamports(interest + principal);
      w := Waterfall(interest, principal, interestSol, SaturatingSub(clearedSol, interestSol));
    }

    /** `compute_shortfall_divert` and `compute_shortfall_sol`: tokens missing from a vault, in SOL. */
    method ShortfallInSol(tokens: nat, c: Collateral, prices: Prices) returns (r: Outcome, sol: u64)
      ensures r.Done? <==> CanPriceShortfall(c, tokens, prices)
      ensures r.Done? ==> sol == TreasuryCost(c, tokens, prices)
    {
      var usd;
      sol := 0;
      r, usd := ValueTokens(tokens, prices.collateral, c.unit);
      if r.Failed? { return; }
      :- Require(prices.sol > 0, InvalidOraclePrice);
      var product :- Mul128(usd, 1_000_000_000);
      sol := Truncate64(product / prices.sol);
      r := Done;
    }

    /** Everything a repayment in SOL does before it moves the SOL. */
    method ClearHandler(k: Id, lamports: u64, prices: Prices, slot: u64)
      returns (r: Outcome, out: Clearing, rewards: Rewards)
      requires Ready(k)
      ensures r.Done? <==> CanClear(Accounts(), k, lamports, prices, slot)
      ensures r.Done? ==>
        && out == ClearingOf(Accounts(), k, lamports, prices, slot)
        && rewards == SettledRewards(positions[k], rewardPerToken, out.loan.principal)
      ensures k in positions && !positions[k].phase.Open? ==> r == Failed(PositionClosed)
    {
      var p, c, l, after, w, divert;
      out, rewards := Clearing(Loan(0, 0, 0), Waterfall(0, 0, 0, 0), 0), Rewards(0, 0, 0);
      r, p, c := Load(k);
      if r.Failed? { return; }
      :- Require(lamports > 0, ZeroAmount);
      r, l := Accrue(p.loan, c.terms.curve, slot);
      if r.Failed? { return; }
      var owed :- Add64(l.principal, l.interest);
      r, after, w := SettleRepayment(l, lamports);
      if r.Failed? { return; }
      r, rewards := Settle(p, after.principal);
      if r.Failed? { return; }
      out := Clearing(after, w, 0);
      if TotalOwed(after) == 0 && p.collateral > c.vault {
        r, divert := ShortfallInSol(p.collateral - Min(c.vault, p.collateral), c, prices);
        if r.Failed? { return; }
        out := out.(divert := Min(divert, w.principalSol));
      }
    }

    /** Writes back a clearing whose SOL has been routed to the pool and the buyback vault. */
    method WriteClearing(k: Id, out: Clearing, rewards: Rewards)
      requires k in positions && 0 <= Earned(ShareIn(positions[k]), rewardPerToken) && CanRoute(Accounts(), out)
      requires rewards == SettledRewards(positions[k], rewardPerToken, out.loan.principal)
      modifies this
      ensures Accounts() == old(ClearedBy(Accounts(), k, out))
    {
      var q := positions[k].(loan := out.loan, rewards := rewards);
      if TotalOwed(out.loan) == 0 {
        q := q.(phase := AwaitingClaim, buyback := out.divert);
      }
      WriteReduced(k, q, out.waterfall.principalCleared);
      unburned := unburned + out.waterfall.principalCleared;
      pool, buybackVault := Pool.Apply(pool, Pool.TransferIn(ToPool(out))), buybackVault + out.divert;
    }

    method RepayDebt(k: Id, lamports: u64, held: u64, prices: Prices, slot: u64) returns (r: Outcome)
      requires Ready(k)
      modifies this
      ensures r.Done? <==> old(CanRepay(Accounts(), k, lamports, held, prices, slot))
      ensures Accounts() == old(if r.Done? then RepaidBy(Accounts(), k, lamports, held, prices, slot) else Accounts())
    {
      var out, rewards;
      r, out, rewards := ClearHandler(k, lamports, prices, slot);
      if r.Failed? { return; }
      :- Require(out.waterfall.interestSol + out.waterfall.principalSol <= held, TransferFailed);
      :- Require(feeVault + out.waterfall.interestSol < U64, TransferFailed);
      :- Require(pool.vault + ToPool(out) < U64 && buybackVault + out.divert < U64, TransferFailed);
      feeVault := feeVault + out.waterfall.interestSol;
      WriteClearing(k, out, rewards);
    }

    method RepayDebtSpl(k: Id, sol: u64, rent: u64, prices: Prices, slot: u64) returns (r: Outcome)
      requires Ready(k)
      modifies this
      ensures r.Done? <==> old(CanRepaySpl(Accounts(), k, sol, rent, prices, slot))
      ensures Accounts() == old(if r.Done? then RepaidSpl(Accounts(), k, sol, rent, prices, slot) else Accounts())
    {
      var out, rewards;
      :- Require(feeVault + sol + rent < U64, TransferFailed);
      r, out, rewards := ClearHandler(k, sol, prices, slot);
      if r.Failed? { return; }
      WaterfallConserves(LoanAt(Accounts(), k, slot), sol, pool.rate);
      :- Require(pool.vault + ToPool(out) < U64 && buybackVault + out.divert < U64, TransferFailed);
      feeVault := feeVault + sol + rent - ToPool(out) - out.divert;
      WriteClearing(k, out, rewards);
    }

    // --- repay_debt_rise_sol, close_position ------------------------------------------------------

    /** Burn, then `notify_rise_sol_burned` for the part that was interest. */
    method CheckBurn(amount: nat, interest: nat, held: nat) returns (r: Outcome)
      ensures r.Done? <==> amount <= held && CanBurn(pool, amount, interest)
      ensures held < amount ==> r == Failed(InsufficientRepaymentBalance)
    {
      r := Done;
      :- Require(held >= amount, InsufficientRepaymentBalance);
      :- Require(amount <= pool.tokenSupply, TransferFailed);
      var supply :- CheckedSub(pool.stakingSupply, interest);
    }

    method RepayRiseSolHandler(k: Id, amount: u64, held: u64, slot: u64)
      returns (r: Outcome, q: Position, interest: nat, principal: nat)
      requires Ready(k)
      ensures r.Done? <==> CanRepayRiseSol(Accounts(), k, amount, held, slot)
      ensures r.Done? ==>
        var l := LoanAt(Accounts(), k, slot);
        && (interest, principal) == Cleared(l, amount)
        && q == BurnedPosition(positions[k], rewardPerToken, Repaid(l, amount))
    {
      var c, l, after, rewards;
      interest, principal := 0, 0;
      r, q, c := Load(k);
      if r.Failed? { return; }
      :- Require(amount > 0, ZeroAmount);
      r, l := Accrue(q.loan, c.terms.curve, slot);
      if r.Failed? { return; }
      var owed :- Add64(l.principal, l.interest);
      r, after, interest, principal := Clear(l, amount);
      if r.Failed? { return; }
      r, rewards := Settle(q, after.principal);
      if r.Failed? { return; }
      q := q.(loan := after, rewards := rewards);
      r := CheckBurn(interest + principal, interest, held);
      if TotalOwed(after) == 0 { q := q.(phase := AwaitingClaim, buyback := 0); }
    }

    method RepayDebtRiseSol(k: Id, amount: u64, held: u64, slot: u64) returns (r: Outcome)
      requires Ready(k)
      modifies this
      ensures r.Done? <==> old(CanRepayRiseSol(Accounts(), k, amount, held, slot))
      ensures Accounts() == old(if r.Done? then RepaidRiseSol(Accounts(), k, amount, held, slot) else Accounts())
    {
      var q, interest, principal;
      r, q, interest, principal := RepayRiseSolHandler(k, amount, held, slot);
      if r.Failed? { return; }
      WriteReduced(k, q, principal);
      pool := Burned(pool, interest + principal, interest);
    }

    method CloseHandler(k: Id, held: u64) returns (r: Outcome, q: Position, d: Collateral)
      requires Ready(k)
      ensures r.Done? <==> CanClose(Accounts(), k, held)
      ensures r.Done? ==>
        && q == EndedPosition(positions[k], rewardPerToken)
        && d == Returned(CollateralFor(Accounts(), k), positions[k].collateral, positions[k].collateral)
      ensures k in positions && !positions[k].phase.Open? ==> r == Failed(PositionClosed)
    {
      var rewards;
      r, q, d := Load(k);
      if r.Failed? { return; }
      var owed :- Add64(q.loan.principal, q.loan.interest);
      :- Require(owed > 0, ZeroAmount);
      r := CheckBurn(owed, q.loan.interest, held);
      if r.Failed? { return; }
      r, rewards := Settle(q, 0);
      if r.Failed? { return; }
      :- Require(q.collateral <= d.vault, TransferFailed);
      d := d.(entitlements := SaturatingSub(d.entitlements, q.collateral), vault := d.vault - q.collateral);
      q := q.(loan := q.loan.(principal := 0, interest := 0), phase := Ended, rewards := rewards);
    }

    method ClosePosition(k: Id, held: u64) returns (r: Outcome)
      requires Ready(k)
      modifies this
      ensures r.Done? <==> old(CanClose(Accounts(), k, held))
      ensures Accounts() == old(if r.Done? then Closed(Accounts(), k, held) else Accounts())
    {
      var q, d;
      r, q, d := CloseHandler(k, held);
      if r.Failed? { return; }
      var l := positions[k].loan;
      WriteReduced(k, q, l.principal);
      pool, collaterals := Burned(pool, l.principal + l.interest, l.interest), collaterals[q.mint := d];
    }

    // --- liquidate --------------------------------------------------------------------------------

    /** The interest's proportion of what a swap returned above the fee. */
    method InterestPart(sol: u64, target: u64, total: u64) returns (r: Outcome, interest: nat)
      requires target <= total
      ensures r.Done? && interest == Proportion(sol, target, total) <= sol
    {
      interest := 0;
      if total > 0 && sol > 0 {
        MulMonotone(sol, U64, target);
        ShareAtMost(sol, target, total);
        var scaled :- Mul128(sol, target);
        var quotient :- CheckedDiv(scaled, total);
        interest :- Narrow64(quotient);
      }
      r := Done;
    }

    /** The split of the swap's output. */
    method Split(sol: u64, penalty: nat, principalTarget: u64, interestTarget: u64)
      returns (r: Outcome, split: Proceeds)
      requires penalty <= BPS
      ensures r.Done? && split == SplitProceeds(sol, penalty, principalTarget, interestTarget)
      ensures IsSplit(split, sol, penalty, principalTarget, interestTarget)
    {
      split := Proceeds(0, 0, 0);
      ShareAtMost(sol, penalty, BPS);
      MulMonotone(penalty, BPS, sol);
      var product :- Mul128(sol, penalty);
      var fee := Truncate64(product / 10_000);
      var afterFee, interest := SaturatingSub(sol, fee), 0;
      r, interest := InterestPart(afterFee, interestTarget, Min(principalTarget + interestTarget, U64 - 1));
      split := Proceeds(fee, interest, SaturatingSub(afterFee, interest));
      SplitIs(sol, penalty, principalTarget, interestTarget);
    }

    /** The health gate and the refund of what the collateral is worth above the debt. */
    method GateHandler(p: Position, c: Collateral, prices: Prices) returns (r: Outcome, refund: u64)
      requires p.collateral < U64
      ensures r.Done? <==>
        && 0 < prices.sol && CanValueTokens(p.collateral, prices.collateral) && CanValueDebt(p.loan, prices.sol)
        && var usd := CollateralUsd(p.collateral, prices.collateral, c.unit);
        && var debtUsd := DebtUsd(TotalOwed(p.loan), prices.sol);
        && CanRate(usd, debtUsd, c.terms.threshold) && Liquidatable(usd, debtUsd, c.terms.threshold)
        && SaturatingSub(usd, debtUsd) * c.unit < U128
      ensures r.Done? ==>
        refund == Refund(CollateralUsd(p.collateral, prices.collateral, c.unit), DebtUsd(TotalOwed(p.loan), prices.sol),
                         prices.collateral, c.unit) <= p.collateral
    {
      var usd, debtUsd, factor;
      refund := 0;
      r, usd := ValueTokens(p.collateral, prices.collateral, c.unit);
      if r.Failed? { return; }
      r, debtUsd := ValueDebt(p.loan, prices.sol);
      if r.Failed? { return; }
      r, factor := Health(usd, debtUsd, c.terms.threshold);
      if r.Failed? { return; }
      :- Require(factor < HEALTH_SCALE, PositionHealthy);
      var product :- Mul128(SaturatingSub(usd, debtUsd), c.unit);
      RefundIsCovered(p.collateral, debtUsd, prices.collateral, c.unit);
      refund := Truncate64(product / prices.collateral);
      r := Done;
    }

    method LiquidateHandler(k: Id, prices: Prices, sol: u64, rent: u64)
      returns (r: Outcome, q: Position, d: Collateral, split: Proceeds, kept: nat)
      requires Ready(k)
      ensures r.Done? <==> CanLiquidate(Accounts(), k, prices, sol, rent)
      ensures r.Done? ==>
        var p, c := positions[k], CollateralFor(Accounts(), k);
        && q == EndedPosition(p, rewardPerToken) && d == Returned(c, p.collateral, p.collateral)
        && split == ProceedsAt(Accounts(), k, prices, sol) && kept == KeptAt(Accounts(), k, prices, sol, rent)
    {
      var refund, principalTarget, interestTarget, rewards;
      split, kept := Proceeds(0, 0, 0), 0;
      r, q, d := Load(k);
      if r.Failed? { return; }
      r, refund := GateHandler(q, d, prices);
      if r.Failed? { return; }
      r, principalTarget := InLamports(q.loan.principal);
      if r.Failed? { return; }
      r, interestTarget := InLamports(q.loan.interest);
      if r.Failed? { return; }
      :- Require(q.collateral <= d.vault, TransferFailed);
      :- Require(feeVault + sol + rent < U64, TransferFailed);
      if SaturatingSub(q.collateral, refund) > 0 {
        r, split := Split(sol, d.terms.penalty, principalTarget, interestTarget);
        kept := rent + split.interest;
      }
      :- Require(pool.vault + split.principal < U64, TransferFailed);
      r, rewards := Settle(q, 0);
      if r.Failed? { return; }
      d := d.(entitlements := SaturatingSub(d.entitlements, q.collateral), vault := d.vault - q.collateral);
      q := q.(loan := q.loan.(principal := 0, interest := 0), phase := Ended, rewards := rewards);
    }

    method WriteLiquidation(k: Id, q: Position, d: Collateral, toPool: nat, kept: nat)
      requires Active(Accounts(), k) && 0 <= Earned(ShareIn(positions[k]), rewardPerToken)
      requires positions[k].collateral <= CollateralFor(Accounts(), k).vault && pool.vault + toPool < U64
      requires q == EndedPosition(positions[k], rewardPerToken)
      requires d == Returned(CollateralFor(Accounts(), k), positions[k].collateral, positions[k].collateral)
      modifies this
      ensures Accounts() == old(EmptiedBy(Accounts(), k, toPool, kept))
    {
      var principal := positions[k].loan.principal;
      WriteReduced(k, q, principal);
      unburned, collaterals := unburned + principal, collaterals[q.mint := d];
      pool, feeVault := Pool.Apply(pool, Pool.TransferIn(toPool)), feeVault + kept;
    }

    method Liquidate(k: Id, prices: Prices, sol: u64, rent: u64) returns (r: Outcome)
      requires Ready(k)
      modifies this
      ensures r.Done? <==> old(CanLiquidate(Accounts(), k, prices, sol, rent))
      ensures Accounts() == old(if r.Done? then Liquidated(Accounts(), k, prices, sol, rent) else Accounts())
    {
      var q, d, split, kept;
      r, q, d, split, kept := LiquidateHandler(k, prices, sol, rent);
      if r.Failed? { return; }
      WriteLiquidation(k, q, d, split.principal, kept);
    }

    // --- claim_collateral, redeem_collateral_for_liquidity -------------------------------------------

    method ClaimHandler(k: Id, prices: Prices, rent: u64) returns (r: Outcome, out: Claim)
      ensures r.Done? <==> CanClaim(Accounts(), k, prices, rent)
      ensures r.Done? ==> out == ClaimOf(Accounts(), k, prices, rent)
      ensures k in positions && positions[k].phase.Open? ==> r == Failed(PositionStillOpen)
    {
      out := Claim(NO_COLLATERAL, buybackVault, gov);
      :- Require(k in positions, AccountMissing);
      var p := positions[k];
      :- Require(!p.phase.Open?, PositionStillOpen);
      :- Require(p.mint in collaterals, AccountMissing);
      var c := collaterals[p.mint];
      var available := Min(c.vault, p.collateral);
      var missing := SaturatingSub(p.collateral, available);
      var d := c.(entitlements := SaturatingSub(c.entitlements, p.collateral), vault := c.vault - available,
                  settled := c.settled + missing);
      out := Claim(d, buybackVault, gov);
      if missing > 0 {
        if p.buyback > 0 {
          var left :- CheckedSub(buybackVault, p.buyback);
          out := out.(buybackVault := left);
        } else {
          var cost;
          r, cost := ShortfallInSol(missing, c, prices);
          if r.Failed? { return; }
          :- Require(buybackVault + cost < U64, TransferFailed);
          if cost > 0 {
            :- Require(Gov.Accepts(gov, Gov.SpendReserve(cost, rent)), InsufficientLiquidity);
            out := out.(gov := Gov.Apply(gov, Gov.SpendReserve(cost, rent)));
          }
        }
      }
      r := Done;
    }

    method ClaimCollateral(k: Id, prices: Prices, rent: u64) returns (r: Outcome)
      modifies this
      ensures r.Done? <==> old(CanClaim(Accounts(), k, prices, rent))
      ensures Accounts() == old(if r.Done? then Claimed(Accounts(), k, prices, rent) else Accounts())
    {
      var out;
      r, out := ClaimHandler(k, prices, rent);
      if r.Failed? { return; }
      collaterals, positions := collaterals[positions[k].mint := out.returned], positions - {k};
      buybackVault, gov := out.buybackVault, out.gov;
    }

    method SeizeHandler(mint: Id, amount: u64, prices: Prices, sol: u64, rent: u64)
      returns (r: Outcome, d: Collateral)
      ensures r.Done? <==> CanSeize(Accounts(), mint, amount, prices, sol, rent)
      ensures r.Done? ==> d == Seized(Accounts(), mint, amount, prices, sol, rent).collaterals[mint]
      ensures 0 < amount && pool.pending <= pool.liquid ==> r == Failed(LiquidityRedemptionNotNeeded)
    {
      d := NO_COLLATERAL;
      :- Require(amount > 0, ZeroAmount);
      :- Require(pool.liquid < pool.pending, LiquidityRedemptionNotNeeded);
      :- Require(mint in collaterals, AccountMissing);
      var c := collaterals[mint];
      :- Require(prices.collateral > 0, InvalidOraclePrice);
      var usd;
      r, usd := ValueLamports(SaturatingSub(pool.pending, pool.liquid), prices.sol);
      if r.Failed? { return; }
      var scaled :- Mul128(usd, c.unit);
      var taken := Min(amount, Truncate64(scaled / prices.collateral));
      :- Require(taken > 0, ZeroAmount);
      :- Require(c.vault >= taken, InsufficientExcess);
      :- Require(pool.vault + sol + rent < U64, TransferFailed);
      :- Require(Pool.Accepts(Pool.Apply(pool, Pool.TransferIn(sol + rent)), Pool.ReceiveCdpLiquidity(sol)),
                 InsufficientLiquidity);
      d := c.(vault := c.vault - taken, seized := c.seized + taken);
      r := Done;
    }

    method RedeemCollateral(mint: Id, amount: u64, prices: Prices, sol: u64, rent: u64) returns (r: Outcome)
      modifies this
      ensures r.Done? <==> old(CanSeize(Accounts(), mint, amount, prices, sol, rent))
      ensures Accounts() == old(if r.Done? then Seized(Accounts(), mint, amount, prices, sol, rent) else Accounts())
    {
      var d;
      r, d := SeizeHandler(mint, amount, prices, sol, rent);
      if r.Failed? { return; }
      collaterals := collaterals[mint := d];
      pool := Pool.Apply(Pool.Apply(pool, Pool.TransferIn(sol + rent)), Pool.ReceiveCdpLiquidity(sol));
    }

    // --- borrow rewards ------------------------------------------------------------------------------

    method CheckpointHandler(slot: u64) returns (r: Outcome, emissions: nat, rate: nat)
      requires epochEmissions < U64 && rewardPerToken < U128 && lastCheckpoint < slot && 0 < totalDebt
      ensures r.Done? <==> CanCheckpoint(Accounts(), slot)
      ensures r.Done? ==>
        && 0 < slotsPerEpoch && emissions == Emission(Accounts(), slot)
        && rate == rewardPerToken + emissions * REWARD_SCALE / totalDebt
    {
      emissions, rate := 0, rewardPerToken;
      var elapsed := slot - lastCheckpoint;
      MulMonotone(elapsed, U64 - 1, epochEmissions);
      var product :- Mul128(epochEmissions, elapsed);
      emissions :- CheckedDiv(product, slotsPerEpoch);
      if emissions > 0 {
        var scaled :- Mul128(emissions, REWARD_SCALE);
        var increase :- CheckedDiv(scaled, totalDebt);
        rate :- Add128(rewardPerToken, increase);
      }
      r := Done;
    }

    method CheckpointBorrowRewards(slot: u64) returns (r: Outcome)
      requires epochEmissions < U64 && rewardPerToken < U128
      modifies this
      ensures r.Done? <==> old(CanCheckpoint(Accounts(), slot))
      ensures Accounts() == old(if r.Done? then Checkpointed(Accounts(), slot) else Accounts())
    {
      if SaturatingSub(slot, lastCheckpoint) == 0 { return Done; }
      if totalDebt == 0 {
        lastCheckpoint := slot;
        return Done;
      }
      var emissions, rate;
      r, emissions, rate := CheckpointHandler(slot);
      if r.Failed? { return; }
      rewardPerToken, lastCheckpoint, emitted := rate, slot, emitted + emissions;
    }

    method RewardsHandler(k: Id) returns (r: Outcome, rewards: Rewards, due: nat)
      requires k in positions ==> 0 <= Earned(ShareIn(positions[k]), rewardPerToken)
      ensures r.Done? <==> CanClaimRewards(Accounts(), k)
      ensures r.Done? ==>
        && due == positions[k].rewards.pending + Earned(ShareIn(positions[k]), rewardPerToken)
        && rewards == Rewards(Entitled(positions[k].loan.principal, rewardPerToken), 0,
                              positions[k].rewards.claimed + due)
    {
      rewards, due := Rewards(0, 0, 0), 0;
      :- Require(k in positions, AccountMissing);
      r, rewards := Settle(positions[k], positions[k].loan.principal);
      if r.Failed? { return; }
      due := rewards.pending;
      :- Require(due > 0, NoRewardsToClaim);
      :- Require(due <= rewardsVault, TransferFailed);
      var total :- Add64(rewards.claimed, due);
      rewards := rewards.(pending := 0, claimed := total);
      r := Done;
    }

    method ClaimBorrowRewards(k: Id) returns (r: Outcome)
      requires k in positions ==> 0 <= Earned(ShareIn(positions[k]), rewardPerToken)
      modifies this
      ensures r.Done? <==> old(CanClaimRewards(Accounts(), k))
      ensures Accounts() == old(if r.Done? then RewardsClaimed(Accounts(), k) else Accounts())
    {
      var rewards, due;
      r, rewards, due := RewardsHandler(k);
      if r.Failed? { return; }
      positions := positions[k := positions[k].(rewards := rewards)];
      rewardsVault, paid := rewardsVault - due, paid + due;
    }

    // --- collect_cdp_fees, and collect_fees of rise-staking ---------------------------------------------

    method Shares(total: u64) returns (r: Outcome, fees: Fees)
      ensures r.Done? <==> total * STAKING_SHARE_BPS < U64
      ensures r.Done? ==> fees == SplitCdpFees(total)
    {
      fees := Fees(0, 0, 0);
      CdpFeesConserve(total);
      var product :- Narrow64(total * STAKING_SHARE_BPS);
      var staking := product / 10_000;
      var remaining :- CheckedSub(total, staking);
      var scaled :- Narrow64(remaining * VERISE_SHARE_BPS);
      var verise := scaled / (10_000 - STAKING_SHARE_BPS);
      var toReserve :- CheckedSub(remaining, verise);
      fees := Fees(staking, verise, toReserve);
      r := Done;
    }

    method CdpFeesHandler(rent: u64) returns (r: Outcome, fees: Fees)
      requires rent < feeVault < U64
      ensures r.Done? <==> CanCollectCdpFees(Accounts(), rent)
      ensures r.Done? ==> fees == Sweepable(Accounts(), rent)
    {
      r, fees := Shares(feeVault - rent);
      if r.Failed? { return; }
      CdpFeesConserve(feeVault - rent);
      :- Require(pool.vault + fees.staking < U64, TransferFailed);
      if fees.staking > 0 {
        var funded := Pool.Apply(pool, Pool.TransferIn(fees.staking));
        :- Require(Pool.Accepts(funded, Pool.CreditStakingRevenue(fees.staking)), InsufficientLiquidity);
      }
      r := Require(Gov.CanDistribute(gov, fees.verise, fees.reserve), MathOverflow);
    }

    method CollectCdpFees(rent: u64) returns (r: Outcome)
      requires feeVault < U64
      modifies this
      ensures r.Done? <==> old(CanCollectCdpFees(Accounts(), rent))
      ensures Accounts() == old(if r.Done? then CdpFeesCollected(Accounts(), rent) else Accounts())
    {
      if feeVault <= rent { return Done; }
      var fees;
      r, fees := CdpFeesHandler(rent);
      if r.Failed? { return; }
      feeVault, pool, gov := rent, Credited(pool, fees.staking), Gov.Distributed(gov, fees.verise, fees.reserve);
    }

    method FeesHandler(epoch: u64) returns (r: Outcome, verise: nat, toReserve: nat)
      requires 0 < Pool.Excess(pool) < U64
      ensures r.Done? <==> CanCollectFees(Accounts(), epoch)
      ensures r.Done? ==>
        && verise == Cut(Pool.Excess(pool), gov.veriseBps)
        && toReserve == Pool.Excess(pool) - Cut(Pool.Excess(pool), gov.teamBps) - verise
    {
      verise, toReserve := 0, 0;
      :- Require(epoch > gov.lastCollection, EpochNotAdvanced);
      var total :- Narrow64(Pool.Excess(pool));
      var team := Cut(total, gov.teamBps);
      verise := Cut(total, gov.veriseBps);
      var afterTeam :- CheckedSub(total, team);
      toReserve :- CheckedSub(afterTeam, verise);
      r := Require(Gov.CanDistribute(gov, verise, toReserve), MathOverflow);
    }

    method CollectFees(epoch: u64) returns (r: Outcome)
      requires 0 <= Pool.Excess(pool) < U64
      modifies this
      ensures r.Done? <==> old(CanCollectFees(Accounts(), epoch))
      ensures Accounts() == old(if r.Done? then FeesCollected(Accounts(), epoch) else Accounts())
    {
      if Pool.Excess(pool) == 0 { return Require(epoch > gov.lastCollection, EpochNotAdvanced); }
      var verise, toReserve;
      r, verise, toReserve := FeesHandler(epoch);
      if r.Failed? { return; }
      pool := Pool.Apply(pool, Pool.CollectFees);
      gov := Gov.Distributed(gov, verise, toReserve).(lastCollection := epoch);
    }

    // --- configuration, and calls that do not involve the CDP engine ---------------------------------------

    method Configure(ix: Instruction) returns (r: Outcome)
      requires ix.FundBorrowRewards? || ix.UpdateDebtCeiling? || ix.InitializeCollateral? || ix.UpdateCollateral?
      modifies this
      ensures r.Done? <==> old(AcceptsOnProtocol(Accounts(), ix))
      ensures Accounts() == old(if r.Done? then ApplyOnProtocol(Accounts(), ix) else Accounts())
    {
      match ix {
        case FundBorrowRewards(amount) =>
          :- Require(rewardsVault + amount < U64, TransferFailed);
          rewardsVault := rewardsVault + amount;
        case UpdateDebtCeiling(bps) =>
          :- Require(0 < bps < U32, ZeroAmount);
          multiplierBps := bps;
        case InitializeCollateral(mint, terms, unit) =>
          :- Require(mint !in collaterals, AccountInUse);
          :- Require(ValidTerms(terms) && 0 < terms.curve.optimal < BPS, ZeroAmount);
          collaterals := collaterals[mint := Collateral(true, terms, unit, 0, 0, 0, 0)];
        case UpdateCollateral(mint, update) =>
          :- Require(mint in collaterals, AccountMissing);
          var c := collaterals[mint];
          var terms;
          r, terms := UpdateHandler(c.terms, update);
          if r.Failed? { return; }
          collaterals := collaterals[mint := c.(active := update.active.GetOr(c.active), terms := terms)];
      }
      r := Done;
    }

    /** One setting: left as it is, or checked and replaced. */
    method Choose(setting: Option<nat>, current: nat, max: nat) returns (r: Outcome, value: nat)
      ensures r == if AtMost(setting, max) then Done else Failed(ZeroAmount)
      ensures r.Done? ==> value == setting.GetOr(current)
    {
      value := current;
      if setting.Some? {
        :- Require(setting.value <= max, ZeroAmount);
        value := setting.value;
      }
      r := Done;
    }

    method UpdateCurve(t: Curve, u: Update) returns (r: Outcome, curve: Curve)
      ensures r.Done? <==>
        && AtMost(u.base, 10_000) && AtMost(u.slope1, 20_000) && AtMost(u.slope2, 50_000) && AtMost(u.optimal, BPS)
      ensures r.Done? ==>
        && curve.base == u.base.GetOr(t.base) && curve.slope1 == u.slope1.GetOr(t.slope1)
        && curve.slope2 == u.slope2.GetOr(t.slope2) && curve.optimal == u.optimal.GetOr(t.optimal)
    {
      var base, slope1, slope2, optimal;
      curve := t;
      r, base := Choose(u.base, t.base, 10_000);
      if r.Failed? { return; }
      r, slope1 := Choose(u.slope1, t.slope1, 20_000);
      if r.Failed? { return; }
      r, slope2 := Choose(u.slope2, t.slope2, 50_000);
      if r.Failed? { return; }
      r, optimal := Choose(u.optimal, t.optimal, BPS);
      curve := Curve(base, slope1, slope2, optimal);
    }

    /** The settings that are given, in turn: an update goes through if and only if valid terms stay
        valid, and changes what it names. */
    method UpdateHandler(t: Terms, u: Update) returns (r: Outcome, terms: Terms)
      ensures r.Done? <==> CanUpdate(t, u)
      ensures ValidTerms(t) ==> (r.Done? <==> ValidTerms(Updated(t, u)))
      ensures r.Done? ==> terms == Updated(t, u)
    {
      var maxLtv, threshold, penalty, curve;
      terms := t;
      if ValidTerms(t) { UpdateKeepsTerms(t, u); }
      r, maxLtv := Choose(u.maxLtv, t.maxLtv, 9_500);
      if r.Failed? { return; }
      r, threshold := Choose(u.threshold, t.threshold, 9_800);
      if r.Failed? { return; }
      r, penalty := Choose(u.penalty, t.penalty, 2_000);
      if r.Failed? { return; }
      :- Require(threshold > maxLtv, ZeroAmount);
      r, curve := UpdateCurve(t.curve, u);
      terms := Terms(maxLtv, threshold, penalty, curve);
    }

    method Delegate(ix: Instruction) returns (r: Outcome)
      requires ix.PoolInstruction? || ix.GovernanceInstruction?
      modifies this
      ensures r.Done? <==> old(AcceptsOnProtocol(Accounts(), ix))
      ensures Accounts() == old(if r.Done? then ApplyOnProtocol(Accounts(), ix) else Accounts())
    {
      match ix {
        case PoolInstruction(own) =>
          :- Require(IsPublic(own) && Pool.Accepts(pool, own), TransferFailed);
          pool := Pool.Apply(pool, own);
        case GovernanceInstruction(own) =>
          :- Require(IsOwn(gov, own) && Gov.Accepts(gov, own), TransferFailed);
          gov := Gov.Apply(gov, own);
      }
      r := Done;
    }

    // --- Transactions ----------------------------------------------------------------------------------------

    lemma PositionsAreReady(k: Id)
      requires Valid()
      ensures Ready(k) && 0 <= Pool.Excess(pool) < U64
    {
      Pool.Widths(pool);
      PrincipalIsCounted(Accounts(), k);
      SettlementIsFair(Accounts(), k);
    }

    method ExecuteOnPosition(ix: Instruction) returns (r: Outcome)
      requires Valid() && OnPosition(ix)
      modifies this
      ensures r.Done? <==> old(AcceptsOnPosition(Accounts(), ix))
      ensures Accounts() == old(if r.Done? then ApplyOnPosition(Accounts(), ix) else Accounts())
    {
      PositionsAreReady(ix.position);
      match ix {
        case OpenPosition(k, mint, tokens, amount, held, prices, slot) =>
          r := OpenPosition(k, mint, tokens, amount, held, prices, slot);
        case BorrowMore(k, amount, prices, slot) => r := BorrowMore(k, amount, prices, slot);
        case AddCollateral(k, amount, held, prices) => r := AddCollateral(k, amount, held, prices);
        case WithdrawExcess(k, amount, prices, slot) => r := WithdrawExcess(k, amount, prices, slot);
        case AccrueInterest(k, slot) => r := AccrueInterest(k, slot);
        case RepayDebt(k, lamports, held, prices, slot) => r := RepayDebt(k, lamports, held, prices, slot);
        case RepayDebtSpl(k, sol, rent, prices, slot) => r := RepayDebtSpl(k, sol, rent, prices, slot);
        case RepayDebtRiseSol(k, amount, held, slot) => r := RepayDebtRiseSol(k, amount, held, slot);
        case ClosePosition(k, held) => r := ClosePosition(k, held);
        case Liquidate(k, prices, sol, rent) => r := Liquidate(k, prices, sol, rent);
      }
    }

    method ExecuteOnProtocol(ix: Instruction) returns (r: Outcome)
      requires Valid() && !OnPosition(ix)
      modifies this
      ensures r.Done? <==> old(AcceptsOnProtocol(Accounts(), ix))
      ensures Accounts() == old(if r.Done? then ApplyOnProtocol(Accounts(), ix) else Accounts())
    {
      PositionsAreReady(if ix.ClaimBorrowRewards? then ix.position else 0);
      match ix {
        case ClaimCollateral(k, prices, rent) => r := ClaimCollateral(k, prices, rent);
        case RedeemCollateral(mint, amount, prices, sol, rent) =>
          r := RedeemCollateral(mint, amount, prices, sol, rent);
        case CheckpointBorrowRewards(slot) => r := CheckpointBorrowRewards(slot);
        case ClaimBorrowRewards(k) => r := ClaimBorrowRewards(k);
        case CollectCdpFees(rent) => r := CollectCdpFees(rent);
        case CollectFees(epoch) => r := CollectFees(epoch);
        case PoolInstruction(_) => r := Delegate(ix);
        case GovernanceInstruction(_) => r := Delegate(ix);
        case FundBorrowRewards(_) => r := Configure(ix);
        case UpdateDebtCeiling(_) => r := Configure(ix);
        case InitializeCollateral(_, _, _) => r := Configure(ix);
        case UpdateCollateral(_, _) => r := Configure(ix);
      }
    }

    /** One transaction: exactly the step the rules allow, every invariant kept, and the collateral
        books too when the step is regular. */
    method Execute(ix: Instruction) returns (r: Outcome)
      requires Valid()
      modifies this
      ensures Valid()
      ensures old(Custody(Accounts()) && Regular(Accounts(), ix)) ==> Custody(Accounts())
      ensures Accounts() == Step(old(Accounts()), ix)
      ensures r.Done? <==> Accepts(old(Accounts()), ix)
    {
      StepKeepsInv(Accounts(), ix);
      if Custody(Accounts()) && Regular(Accounts(), ix) { StepKeepsCustody(Accounts(), ix); }
      if OnPosition(ix) {
        r := ExecuteOnPosition(ix);
      } else {
        r := ExecuteOnProtocol(ix);
      }
    }
  }
}
