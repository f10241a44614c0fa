/** What the instructions that open and change a position move, to the unit, and the limits they keep:
    amounts are given by the inequalities that define rounding down, and whatever is not named stays
    as it was. */
module CdpAmounts {
  import opened Arithmetic
  import opened MapSums
  import opened Accumulator
  import opened Interest
  import opened Risk
  import opened Settlement
  import opened Cdp
  import opened CdpInvariants
  import Pool = StakingPool

  // --- Values ------------------------------------------------------------------------

  /** Tokens in micro-USD. */
  ghost predicate IsUsd(usd: int, tokens: nat, price: nat, unit: nat) { IsFloor(usd, tokens * price, unit) }

  /** Lamports in micro-USD. */
  ghost predicate IsSolUsd(usd: int, lamports: nat, solPrice: nat) { IsFloor(usd, lamports * solPrice, 1_000_000_000) }

  /** riseSOL in lamports. */
  ghost predicate IsSol(lamports: int, riseSol: nat, rate: nat) { IsFloor(lamports, riseSol * rate, 1_000_000_000) }

  /** The collateral weighed by its threshold against the debt, with eighteen decimals. */
  ghost predicate IsHealth(health: int, usd: nat, debtUsd: nat, threshold: nat) {
    if debtUsd == 0 then health == U128 - 1
    else exists weighed: nat ::
      IsFloor(weighed, usd * threshold, 10_000) && IsFloor(health, weighed * 1_000_000_000_000_000_000, debtUsd)
  }

  lemma HealthIs(usd: nat, debtUsd: nat, threshold: nat)
    ensures IsHealth(HealthFactor(usd, debtUsd, threshold), usd, debtUsd, threshold)
  {
    if 0 < debtUsd {
      FloorIs(usd * threshold, BPS);
      FloorIs(usd * threshold / BPS * HEALTH_SCALE, debtUsd);
      assert IsFloor(usd * threshold / BPS, usd * threshold, 10_000);
    }
  }

  /** Only the two products of the health factor have to fit, and only with a debt. */
  lemma RatingIsAcceptedIff(usd: nat, debtUsd: nat, threshold: nat, weighed: nat)
    requires IsFloor(weighed, usd * threshold, 10_000)
    ensures CanRate(usd, debtUsd, threshold) <==>
      debtUsd == 0 || (usd * threshold < U128 && weighed * 1_000_000_000_000_000_000 < U128)
  {
    FloorUnique(weighed, usd * threshold, BPS);
  }

  // --- Interest ----------------------------------------------------------------------

  ghost predicate IsCeiling(ceiling: nat, s: State) {
    IsFloor(ceiling, s.pool.stakingSupply * s.multiplierBps, 10_000)
  }

  /** The rate of a curve at the utilization that the debt makes of the ceiling. */
  ghost predicate IsBorrowRate(rateBps: nat, s: State, curve: Curve) {
    exists ceiling: nat, u: nat ::
      IsCeiling(ceiling, s) && IsUtilization(u, s.minted, ceiling) && IsRate(rateBps, curve, u)
  }

  lemma BorrowRateIs(s: State, curve: Curve)
    requires curve.optimal <= BPS
    ensures IsBorrowRate(BorrowRate(s, curve), s, curve)
  {
    CeilingIs(s.pool.stakingSupply, s.multiplierBps);
    UtilizationIs(s.minted, CeilingNow(s));
    RateIs(curve, Utilization(s.minted, CeilingNow(s)));
    assert IsCeiling(CeilingNow(s), s);
  }

  lemma BorrowRateUnique(rateBps: nat, s: State, curve: Curve)
    requires IsBorrowRate(rateBps, s, curve) && curve.optimal <= BPS
    ensures rateBps == BorrowRate(s, curve)
  {
    var ceiling: nat, u: nat :|
      IsCeiling(ceiling, s) && IsUtilization(u, s.minted, ceiling) && IsRate(rateBps, curve, u);
    FloorUnique(ceiling, s.pool.stakingSupply * s.multiplierBps, BPS);
    UtilizationUnique(u, s.minted, ceiling);
    RateUnique(rateBps, curve, u);
  }

  /** Interest is refused only for its product and its sum. */
  lemma AccrualIsAcceptedIff(s: State, k: Id, slot: nat, rateBps: nat, due: nat)
    requires Inv(s) && Active(s, k) && IsBorrowRate(rateBps, s, CollateralFor(s, k).terms.curve)
    requires s.positions[k].loan.lastSlot < slot
    requires IsInterest(due, s.positions[k].loan.principal, rateBps, slot - s.positions[k].loan.lastSlot)
    ensures var l := s.positions[k].loan;
      CanAccrueAt(s, k, slot) <==> l.principal * rateBps * (slot - l.lastSlot) < U128 && l.interest + due < U64
  {
    var l := s.positions[k].loan;
    BorrowRateUnique(rateBps, s, CollateralFor(s, k).terms.curve);
    InterestIs(l.principal, rateBps, slot - l.lastSlot);
    FloorUnique(due, l.principal * rateBps * (slot - l.lastSlot), 10_000 * 78_840_000);
    FloorUnique(InterestFor(l.principal, rateBps, slot - l.lastSlot), l.principal * rateBps * (slot - l.lastSlot),
                10_000 * 78_840_000);
  }

  /** A loan with the interest of the slots since it was last charged, at that rate. */
  ghost predicate IsCharged(m: Loan, s: State, k: Id, slot: nat)
    requires Active(s, k)
  {
    var l := s.positions[k].loan;
    && m.principal == l.principal
    && if slot <= l.lastSlot then m == l
       else exists rateBps: nat :: IsBorrowRate(rateBps, s, CollateralFor(s, k).terms.curve)
              && IsInterest(m.interest - l.interest, l.principal, rateBps, slot - l.lastSlot)
  }

  /** Every handler but the crank works on the loan with its interest; its slot moves with a charge. */
  lemma LoanAtIsCharged(s: State, k: Id, slot: nat)
    requires Inv(s) && Active(s, k)
    ensures var m, l := LoanAt(s, k, slot), s.positions[k].loan;
      IsCharged(m, s, k, slot) && m.lastSlot == if m.interest == l.interest then l.lastSlot else slot
  {
    var curve := CollateralFor(s, k).terms.curve;
    BorrowRateIs(s, curve);
    AccrualCharges(s.positions[k].loan, BorrowRate(s, curve), slot);
  }

  /** The crank charges the same, always moves the slot forward, and changes nothing else. */
  lemma CrankMoves(s: State, k: Id, slot: nat)
    requires Inv(s) && Active(s, k)
    ensures var t, p := CrankedAt(s, k, slot), s.positions[k];
      && k in t.positions && IsCharged(t.positions[k].loan, s, k, slot)
      && t == s.(positions := s.positions[k := p.(loan := t.positions[k].loan)])
      && t.positions[k].loan.lastSlot == Max(p.loan.lastSlot, slot)
  {
    var curve := CollateralFor(s, k).terms.curve;
    BorrowRateIs(s, curve);
    CrankCharges(s.positions[k].loan, BorrowRate(s, curve), slot);
  }

  // --- Opening and borrowing -----------------------------------------------------------

  /** The debt ceiling, and a twentieth of it for one loan. */
  lemma LendingLimits(s: State, amount: nat, principal: nat, ceiling: nat)
    requires IsCeiling(ceiling, s)
    ensures CanLend(s, amount, principal) <==> s.minted + amount <= ceiling && principal * 10_000 <= ceiling * 500
  {
    FloorUnique(ceiling, s.pool.stakingSupply * s.multiplierBps, BPS);
    FloorAdjoint(principal, CeilingNow(s) * MAX_SINGLE_LOAN_BPS, BPS);
  }

  /** An opening takes the tokens into vault and entitlements, mints the debt, counts it twice, and
      starts loan and rewards at what slot and rate are now. */
  lemma OpeningMoves(s: State, k: Id, mint: Id, tokens: u64, amount: u64, held: u64, prices: Prices, slot: u64)
    requires CanOpen(s, k, mint, tokens, amount, held, prices)
    ensures var t, c := Opened(s, k, mint, tokens, amount, prices, slot), s.collaterals[mint];
      && k in t.positions
      && t == s.(positions := s.positions[k := t.positions[k]],
                 collaterals := s.collaterals[mint := c.(vault := c.vault + tokens,
                                                         entitlements := c.entitlements + tokens)],
                 minted := s.minted + amount, totalDebt := s.totalDebt + amount,
                 pool := s.pool.(tokenSupply := s.pool.tokenSupply + amount), changes := t.changes)
  {
  }

  lemma OpenedIs(s: State, k: Id, mint: Id, tokens: u64, amount: u64, held: u64, prices: Prices, slot: u64,
                 usd: nat, debtUsd: nat)
    requires CanOpen(s, k, mint, tokens, amount, held, prices)
    requires IsUsd(usd, tokens, prices.collateral, s.collaterals[mint].unit) && IsSolUsd(debtUsd, amount, prices.sol)
    ensures var t := Opened(s, k, mint, tokens, amount, prices, slot);
      && k in t.positions
      && var q := t.positions[k];
      && q == Position(mint, tokens, Loan(amount, 0, slot), Open, 0, Rewards(q.rewards.debt, 0, 0), usd, q.health)
      && IsFloor(q.rewards.debt, amount * s.rewardPerToken, 1_000_000_000_000)
      && IsHealth(q.health, usd, debtUsd, s.collaterals[mint].terms.threshold)
  {
    FloorUnique(usd, tokens * prices.collateral, s.collaterals[mint].unit);
    FloorUnique(debtUsd, amount * prices.sol, LAMPORTS_PER_SOL);
    FloorIs(amount * s.rewardPerToken, REWARD_SCALE);
    HealthIs(usd, debtUsd, s.collaterals[mint].terms.threshold);
  }

  /** What has to fit its integer width in an opening. */
  ghost predicate OpeningFits(
    s: State, c: Collateral, tokens: nat, amount: nat, prices: Prices, usd: nat, debtUsd: nat, maxUsd: nat)
  {
    && tokens * prices.collateral < U128 && amount * prices.sol < U128 && usd * c.terms.maxLtv < U128
    && maxUsd * 1_000_000_000 < U128 && CanRate(usd, debtUsd, c.terms.threshold)
    && c.entitlements + tokens < U64 && c.vault + tokens < U64 && amount * s.rewardPerToken < U128
    && s.totalDebt + amount < U64 && s.pool.tokenSupply + amount < U64
  }

  lemma BearsIff(c: Collateral, tokens: nat, amount: nat, prices: Prices, usd: nat, debtUsd: nat, maxUsd: nat)
    requires 0 < prices.collateral && 0 < prices.sol
    requires IsUsd(usd, tokens, prices.collateral, c.unit) && IsSolUsd(debtUsd, amount, prices.sol)
    requires IsFloor(maxUsd, usd * c.terms.maxLtv, 10_000)
    ensures Bears(c, tokens, amount, prices) <==>
      && amount * prices.sol <= maxUsd * 1_000_000_000
      && tokens * prices.collateral < U128 && amount * prices.sol < U128 && usd * c.terms.maxLtv < U128
      && maxUsd * 1_000_000_000 < U128 && CanRate(usd, debtUsd, c.terms.threshold)
  {
    FloorUnique(usd, tokens * prices.collateral, c.unit);
    FloorUnique(debtUsd, amount * prices.sol, LAMPORTS_PER_SOL);
    FloorUnique(maxUsd, usd * c.terms.maxLtv, BPS);
    FloorAdjoint(amount, maxUsd * LAMPORTS_PER_SOL, prices.sol);
  }

  /** An opening is accepted if and only if the debt is within the maximum loan-to-value of the tokens,
      within the ceiling and its twentieth, the tokens are held and taken, and everything fits. */
  lemma OpeningIsAcceptedIff(
    s: State, k: Id, mint: Id, tokens: u64, amount: u64, held: u64, prices: Prices,
    usd: nat, debtUsd: nat, maxUsd: nat, ceiling: nat)
    requires k !in s.positions && mint in s.collaterals && 0 < prices.collateral && 0 < prices.sol
    requires IsUsd(usd, tokens, prices.collateral, s.collaterals[mint].unit) && IsSolUsd(debtUsd, amount, prices.sol)
    requires IsFloor(maxUsd, usd * s.collaterals[mint].terms.maxLtv, 10_000) && IsCeiling(ceiling, s)
    ensures CanOpen(s, k, mint, tokens, amount, held, prices) <==>
      && s.collaterals[mint].active && 0 < tokens <= held && 0 < amount
      && amount * prices.sol <= maxUsd * 1_000_000_000
      && s.minted + amount <= ceiling && amount * 10_000 <= ceiling * 500
      && OpeningFits(s, s.collaterals[mint], tokens, amount, prices, usd, debtUsd, maxUsd)
  {
    BearsIff(s.collaterals[mint], tokens, amount, prices, usd, debtUsd, maxUsd);
    LendingLimits(s, amount, amount, ceiling);
  }

  /** Borrowing more mints the debt and counts it twice; vaults and other positions stay as they are. */
  lemma BorrowingMoves(s: State, k: Id, amount: u64, prices: Prices, slot: u64)
    requires CanBorrow(s, k, amount, prices, slot)
    ensures var t := Borrowed(s, k, amount, prices, slot);
      && k in t.positions
      && t == s.(positions := s.positions[k := t.positions[k]],
                 minted := s.minted + amount, totalDebt := s.totalDebt + amount,
                 pool := s.pool.(tokenSupply := s.pool.tokenSupply + amount), changes := t.changes)
  {
  }

  /** The position owes the amount on top of its interest, is settled for it, and was valued with it. */
  lemma BorrowedIs(s: State, k: Id, amount: u64, prices: Prices, slot: u64, usd: nat, sol: nat, debtUsd: nat)
    requires CanBorrow(s, k, amount, prices, slot)
    requires IsUsd(usd, s.positions[k].collateral, prices.collateral, CollateralFor(s, k).unit)
    requires IsSol(sol, TotalOwed(LoanAt(s, k, slot)) + amount, s.pool.rate) && IsSolUsd(debtUsd, sol, prices.sol)
    ensures var p, l, t := s.positions[k], LoanAt(s, k, slot), Borrowed(s, k, amount, prices, slot);
      && k in t.positions
      && var q := t.positions[k];
      && q == p.(loan := l.(principal := l.principal + amount), rewards := q.rewards, collateralUsd := usd,
                 health := q.health)
      && IsResettled(ShareIn(p), ShareIn(q), s.rewardPerToken, l.principal + amount)
      && q.rewards.claimed == p.rewards.claimed
      && IsHealth(q.health, usd, debtUsd, CollateralFor(s, k).terms.threshold)
      && debtUsd * 10_000 <= usd * CollateralFor(s, k).terms.maxLtv
  {
    var p, c, l := s.positions[k], CollateralFor(s, k), LoanAt(s, k, slot);
    FloorUnique(usd, p.collateral * prices.collateral, c.unit);
    FloorUnique(sol, (TotalOwed(l) + amount) * s.pool.rate, Pool.RATE_SCALE);
    FloorUnique(debtUsd, sol * prices.sol, LAMPORTS_PER_SOL);
    FloorAdjoint(debtUsd, usd * c.terms.maxLtv, BPS);
    SettledIs(ShareIn(p), s.rewardPerToken, l.principal + amount);
    HealthIs(usd, debtUsd, c.terms.threshold);
  }

  /** So the whole debt, at the exchange rate, is within the maximum loan-to-value of what the position
      is now recorded to hold. */
  lemma BorrowedWithinLtv(s: State, k: Id, amount: u64, prices: Prices, slot: u64)
    requires CanBorrow(s, k, amount, prices, slot)
    ensures var q := BorrowedPosition(s, k, amount, prices, slot);
      DebtUsd(InSol(TotalOwed(q.loan), s.pool.rate), prices.sol) * 10_000
        <= q.collateralUsd * CollateralFor(s, k).terms.maxLtv
  {
    var p, c, l := s.positions[k], CollateralFor(s, k), LoanAt(s, k, slot);
    var usd := CollateralUsd(p.collateral, prices.collateral, c.unit);
    FloorAdjoint(DebtUsd(InSol(TotalOwed(l) + amount, s.pool.rate), prices.sol), usd * c.terms.maxLtv, BPS);
  }

  /** What has to fit its integer width in a borrowing. */
  ghost predicate BorrowingFits(
    s: State, k: Id, amount: u64, prices: Prices, slot: nat, usd: nat, sol: nat, debtUsd: nat)
    requires Active(s, k)
  {
    var p, c, l := s.positions[k], CollateralFor(s, k), LoanAt(s, k, slot);
    && CanAccrueAt(s, k, slot) && p.collateral * prices.collateral < U128 && usd * c.terms.maxLtv < U128
    && TotalOwed(l) + amount < U64 && (TotalOwed(l) + amount) * s.pool.rate < U128 && sol * prices.sol < U128
    && CanRate(usd, debtUsd, c.terms.threshold) && CanSettle(p, s.rewardPerToken, l.principal + amount)
    && s.totalDebt + amount < U64 && s.pool.tokenSupply + amount < U64
  }

  /** A borrowing is accepted if and only if the debt with it, valued through the exchange rate, is within
      the maximum loan-to-value, the ceiling and its twentieth, and everything fits. */
  lemma BorrowingIsAcceptedIff(
    s: State, k: Id, amount: u64, prices: Prices, slot: u64, usd: nat, sol: nat, debtUsd: nat, ceiling: nat)
    requires Active(s, k) && 0 < prices.collateral && 0 < prices.sol && IsCeiling(ceiling, s)
    requires IsUsd(usd, s.positions[k].collateral, prices.collateral, CollateralFor(s, k).unit)
    requires IsSol(sol, TotalOwed(LoanAt(s, k, slot)) + amount, s.pool.rate) && IsSolUsd(debtUsd, sol, prices.sol)
    ensures CanBorrow(s, k, amount, prices, slot) <==>
      && 0 < amount && debtUsd * 10_000 <= usd * CollateralFor(s, k).terms.maxLtv
      && s.minted + amount <= ceiling && (LoanAt(s, k, slot).principal + amount) * 10_000 <= ceiling * 500
      && BorrowingFits(s, k, amount, prices, slot, usd, sol, debtUsd)
  {
    var p, c, l := s.positions[k], CollateralFor(s, k), LoanAt(s, k, slot);
    FloorUnique(usd, p.collateral * prices.collateral, c.unit);
    FloorUnique(sol, (TotalOwed(l) + amount) * s.pool.rate, Pool.RATE_SCALE);
    FloorUnique(debtUsd, sol * prices.sol, LAMPORTS_PER_SOL);
    FloorAdjoint(debtUsd, usd * c.terms.maxLtv, BPS);
    LendingLimits(s, amount, l.principal + amount, ceiling);
  }

  // --- Moving collateral --------------------------------------------------------------------

  /** Added tokens go into vault, entitlements and position alike; the position is valued with them. */
  lemma AddingMoves(s: State, k: Id, amount: u64, held: u64, prices: Prices, usd: nat, debtUsd: nat)
    requires CanAdd(s, k, amount, held, prices)
    requires IsUsd(usd, s.positions[k].collateral + amount, prices.collateral, CollateralFor(s, k).unit)
    requires IsSolUsd(debtUsd, TotalOwed(s.positions[k].loan), prices.sol)
    ensures var t, p, c := Added(s, k, amount, prices), s.positions[k], CollateralFor(s, k);
      && k in t.positions
      && t == s.(positions := s.positions[k := t.positions[k]],
                 collaterals := s.collaterals[p.mint := c.(vault := c.vault + amount,
                                                           entitlements := c.entitlements + amount)])
      && t.positions[k] ==
           p.(collateral := p.collateral + amount, collateralUsd := usd, health := t.positions[k].health)
      && IsHealth(t.positions[k].health, usd, debtUsd, c.terms.threshold)
  {
    var p, c := s.positions[k], CollateralFor(s, k);
    FloorUnique(usd, (p.collateral + amount) * prices.collateral, c.unit);
    FloorUnique(debtUsd, TotalOwed(p.loan) * prices.sol, LAMPORTS_PER_SOL);
    HealthIs(usd, debtUsd, c.terms.threshold);
  }

  /** Tokens may be added to any open position, of an inactive mint too, and whatever its health. */
  lemma AddingIsAcceptedIff(s: State, k: Id, amount: u64, held: u64, prices: Prices, usd: nat, debtUsd: nat)
    requires Active(s, k) && 0 < prices.collateral && 0 < prices.sol
    requires IsUsd(usd, s.positions[k].collateral + amount, prices.collateral, CollateralFor(s, k).unit)
    requires IsSolUsd(debtUsd, TotalOwed(s.positions[k].loan), prices.sol)
    ensures var p, c := s.positions[k], CollateralFor(s, k);
      CanAdd(s, k, amount, held, prices) <==>
        && 0 < amount <= held && p.collateral + amount < U64
        && c.entitlements + amount < U64 && c.vault + amount < U64
        && (p.collateral + amount) * prices.collateral < U128
        && TotalOwed(p.loan) < U64 && TotalOwed(p.loan) * prices.sol < U128
        && CanRate(usd, debtUsd, c.terms.threshold)
  {
    var p, c := s.positions[k], CollateralFor(s, k);
    FloorUnique(usd, (p.collateral + amount) * prices.collateral, c.unit);
    FloorUnique(debtUsd, TotalOwed(p.loan) * prices.sol, LAMPORTS_PER_SOL);
  }

  /** Withdrawn tokens leave vault, entitlements and position alike; the position is charged its interest
      and valued without them. The entitlements cover them in every state in custody. */
  lemma WithdrawalMoves(s: State, k: Id, amount: u64, prices: Prices, slot: u64, usd: nat, debtUsd: nat)
    requires CanWithdrawAt(s, k, amount, prices, slot) && amount <= CollateralFor(s, k).entitlements
    requires amount <= s.positions[k].collateral
    requires IsUsd(usd, s.positions[k].collateral - amount, prices.collateral, CollateralFor(s, k).unit)
    requires IsSolUsd(debtUsd, TotalOwed(LoanAt(s, k, slot)), prices.sol)
    ensures var t, p, c := Withdrawn(s, k, amount, prices, slot), s.positions[k], CollateralFor(s, k);
      && k in t.positions && amount <= c.vault
      && t == s.(positions := s.positions[k := t.positions[k]],
                 collaterals := s.collaterals[p.mint := c.(vault := c.vault - amount,
                                                           entitlements := c.entitlements - amount)])
      && t.positions[k] == p.(collateral := p.collateral - amount, loan := LoanAt(s, k, slot), collateralUsd := usd,
                              health := t.positions[k].health)
      && IsHealth(t.positions[k].health, usd, debtUsd, c.terms.threshold)
  {
    var p, c := s.positions[k], CollateralFor(s, k);
    FloorUnique(usd, (p.collateral - amount) * prices.collateral, c.unit);
    FloorUnique(debtUsd, TotalOwed(LoanAt(s, k, slot)) * prices.sol, LAMPORTS_PER_SOL);
    HealthIs(usd, debtUsd, c.terms.threshold);
  }

  /** What has to fit its integer width in a withdrawal. */
  ghost predicate WithdrawalFits(s: State, k: Id, amount: nat, prices: Prices, slot: nat, left: nat, debtUsd: nat)
    requires Active(s, k)
  {
    && CanAccrueAt(s, k, slot) && TotalOwed(LoanAt(s, k, slot)) < U64
    && s.positions[k].collateral * prices.collateral < U128 && TotalOwed(LoanAt(s, k, slot)) * prices.sol < U128
    && debtUsd * 10_000 < U128 && CanRate(left, debtUsd, CollateralFor(s, k).terms.threshold)
  }

  /** A withdrawal is accepted if and only if its tokens are worth at most what the collateral is worth
      above the debt at four fifths of the maximum loan-to-value, the vault has them, and everything
      fits. */
  lemma WithdrawalIsAcceptedIff(
    s: State, k: Id, amount: u64, prices: Prices, slot: u64,
    safe: nat, required: nat, value: nat, out: nat, left: nat, debtUsd: nat)
    requires Active(s, k) && 0 < prices.collateral && 0 < prices.sol && 0 < amount <= s.positions[k].collateral
    requires IsFloor(safe, CollateralFor(s, k).terms.maxLtv * 80, 100) && 0 < safe
    requires IsSolUsd(debtUsd, TotalOwed(LoanAt(s, k, slot)), prices.sol) && IsFloor(required, debtUsd * 10_000, safe)
    requires IsUsd(value, s.positions[k].collateral, prices.collateral, CollateralFor(s, k).unit)
    requires IsUsd(out, amount, prices.collateral, CollateralFor(s, k).unit)
    requires IsUsd(left, s.positions[k].collateral - amount, prices.collateral, CollateralFor(s, k).unit)
    ensures CanWithdrawAt(s, k, amount, prices, slot) <==>
      && required < value && required + out <= value && amount <= CollateralFor(s, k).vault
      && WithdrawalFits(s, k, amount, prices, slot, left, debtUsd)
  {
    var p, c := s.positions[k], CollateralFor(s, k);
    FloorUnique(safe, c.terms.maxLtv * SAFE_PERCENT, 100);
    FloorUnique(debtUsd, TotalOwed(LoanAt(s, k, slot)) * prices.sol, LAMPORTS_PER_SOL);
    FloorUnique(required, debtUsd * BPS, safe);
    FloorUnique(value, p.collateral * prices.collateral, c.unit);
    FloorUnique(out, amount * prices.collateral, c.unit);
    FloorUnique(left, (p.collateral - amount) * prices.collateral, c.unit);
  }

  /** Nothing is withdrawn against a maximum loan-to-value that four fifths round to nothing. */
  lemma NothingWithdrawnIf(s: State, k: Id, amount: u64, prices: Prices, slot: u64)
    requires Active(s, k) && CollateralFor(s, k).terms.maxLtv <= 1
    ensures !CanWithdrawAt(s, k, amount, prices, slot)
  {
  }

  // --- Terms -----------------------------------------------------------------------------------

  /** A setting that is given replaces the old one; one that is not leaves it. */
  ghost predicate IsSet(now: nat, before: nat, setting: Option<nat>) {
    match setting
    case None => now == before
    case Some(value) => now == value
  }

  /** An update sets exactly what it names. */
  lemma UpdateSets(before: Terms, u: Update)
    ensures var t := Updated(before, u);
      && IsSet(t.maxLtv, before.maxLtv, u.maxLtv) && IsSet(t.threshold, before.threshold, u.threshold)
      && IsSet(t.penalty, before.penalty, u.penalty) && IsSet(t.curve.base, before.curve.base, u.base)
      && IsSet(t.curve.slope1, before.curve.slope1, u.slope1)
      && IsSet(t.curve.slope2, before.curve.slope2, u.slope2)
      && IsSet(t.curve.optimal, before.curve.optimal, u.optimal)
  {
  }
}
