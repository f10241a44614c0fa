/** What the instructions that end a debt move, to the unit: repayments in SOL and by burning, closing
    and liquidation. Amounts are given by the inequalities that define rounding down, and whatever is
    not named stays as it was. */
module CdpClearingAmounts {
  import opened Arithmetic
  import opened MapSums
  import opened Accumulator
  import opened Interest
  import opened Risk
  import opened Settlement
  import opened Cdp
  import opened CdpInvariants
  import opened CdpAmounts
  import Pool = StakingPool

  // --- The waterfall -------------------------------------------------------------------

  /** What a payment of so much riseSOL clears: interest first, then principal, never more than is owed. */
  ghost predicate Clears(l: Loan, riseSol: nat, interest: nat, principal: nat) {
    && interest == Min(riseSol, l.interest)
    && principal == Min(riseSol - interest, l.principal)
  }

  lemma ClearedIs(l: Loan, riseSol: nat, interest: nat, principal: nat)
    requires Clears(l, riseSol, interest, principal)
    ensures Cleared(l, riseSol) == (interest, principal)
    ensures Repaid(l, riseSol) == l.(interest := l.interest - interest, principal := l.principal - principal)
  {
  }

  /** A payment in SOL clears what it is worth in riseSOL; its SOL goes to the interest for what that is
      worth, and to the principal for the rest of what all of it is worth. */
  lemma ClearingIs(
    s: State, k: Id, lamports: nat, prices: Prices, slot: nat,
    riseSol: nat, interest: nat, principal: nat, interestSol: nat, totalSol: nat)
    requires CanClear(s, k, lamports, prices, slot)
    requires IsFloor(riseSol, lamports * 1_000_000_000, s.pool.rate)
    requires Clears(LoanAt(s, k, slot), riseSol, interest, principal)
    requires IsSol(interestSol, interest, s.pool.rate) && IsSol(totalSol, interest + principal, s.pool.rate)
    ensures var r, l := ClearingOf(s, k, lamports, prices, slot), LoanAt(s, k, slot);
      && interestSol <= totalSol
      && r.loan == l.(interest := l.interest - interest, principal := l.principal - principal)
      && r.waterfall == Waterfall(interest, principal, interestSol, totalSol - interestSol)
  {
    var l := LoanAt(s, k, slot);
    FloorUnique(riseSol, lamports * Pool.RATE_SCALE, s.pool.rate);
    ClearedIs(l, riseSol, interest, principal);
    FloorUnique(interestSol, interest * s.pool.rate, Pool.RATE_SCALE);
    FloorUnique(totalSol, (interest + principal) * s.pool.rate, Pool.RATE_SCALE);
    WaterfallMonotone(interest, principal, s.pool.rate);
  }

  /** What a token amount costs in SOL: its value in micro-USD, and that in lamports. */
  ghost predicate IsCost(lamports: nat, tokens: nat, prices: Prices, unit: pos) {
    exists usd: nat :: IsUsd(usd, tokens, prices.collateral, unit) && IsFloor(lamports, usd * 1_000_000_000, prices.sol)
  }

  lemma CostUnique(lamports: nat, tokens: nat, prices: Prices, unit: pos)
    requires IsCost(lamports, tokens, prices, unit)
    ensures 0 < prices.sol && lamports == TokensInSol(tokens, prices.collateral, unit, prices.sol)
  {
    var usd: nat :| IsUsd(usd, tokens, prices.collateral, unit) && IsFloor(lamports, usd * 1_000_000_000, prices.sol);
    FloorUnique(usd, tokens * prices.collateral, unit);
    FloorUnique(lamports, usd * LAMPORTS_PER_SOL, prices.sol);
  }

  /** Once the debt is gone, the tokens missing from the vault are paid for out of the principal's SOL, as
      far as it goes; before that, and without missing tokens, nothing is set aside. The cost is counted in
      64 bits. */
  lemma DiversionIs(s: State, k: Id, lamports: nat, prices: Prices, slot: nat, cost: nat)
    requires CanClear(s, k, lamports, prices, slot)
    requires var missing := s.positions[k].collateral - CollateralFor(s, k).vault;
      0 < missing ==> IsCost(cost, missing, prices, CollateralFor(s, k).unit)
    ensures var r := ClearingOf(s, k, lamports, prices, slot);
      r.divert == if 0 < TotalOwed(r.loan) || s.positions[k].collateral <= CollateralFor(s, k).vault then 0
                  else Min(cost % U64, r.waterfall.principalSol)
  {
    var missing := s.positions[k].collateral - CollateralFor(s, k).vault;
    if 0 < missing { CostUnique(cost, missing, prices, CollateralFor(s, k).unit); }
  }

  /** The position after a clearing: settled for its new principal; without debt it awaits its claim, with
      the SOL that was set aside. */
  ghost predicate IsCleared(s: State, p: Position, q: Position, loan: Loan, setAside: nat) {
    && q == p.(loan := loan, rewards := q.rewards, phase := q.phase, buyback := q.buyback)
    && IsResettled(ShareIn(p), ShareIn(q), s.rewardPerToken, loan.principal) && q.rewards.claimed == p.rewards.claimed
    && (if TotalOwed(loan) == 0 then q.phase.AwaitingClaim? && q.buyback == setAside
        else q.phase == p.phase && q.buyback == p.buyback)
  }

  lemma ClearedPositionIs(s: State, k: Id, r: Clearing)
    requires k in s.positions && 0 <= Earned(ShareIn(s.positions[k]), s.rewardPerToken)
    ensures IsCleared(s, s.positions[k], ClearedPosition(s, k, r), r.loan, r.divert)
  {
    SettledIs(ShareIn(s.positions[k]), s.rewardPerToken, r.loan.principal);
  }

  /** What a clearing moves outside the fee vault. */
  lemma ClearedByMoves(s: State, k: Id, r: Clearing)
    requires k in s.positions && 0 <= Earned(ShareIn(s.positions[k]), s.rewardPerToken) && CanRoute(s, r)
    requires r.waterfall.principalCleared <= s.minted && r.waterfall.principalCleared <= s.totalDebt
    requires r.divert <= r.waterfall.principalSol
    ensures var t, w := ClearedBy(s, k, r), r.waterfall;
      t == s.(positions := s.positions[k := ClearedPosition(s, k, r)], changes := t.changes,
              minted := s.minted - w.principalCleared, totalDebt := s.totalDebt - w.principalCleared,
              unburned := s.unburned + w.principalCleared, buybackVault := s.buybackVault + r.divert,
              pool := s.pool.(vault := s.pool.vault + (w.principalSol - r.divert)))
  {
  }

  /** The cleared principal is counted, and no more is set aside than was paid for it. */
  lemma ClearingFits(s: State, k: Id, lamports: nat, prices: Prices, slot: nat)
    requires Inv(s) && CanClear(s, k, lamports, prices, slot)
    ensures var r := ClearingOf(s, k, lamports, prices, slot);
      && r.waterfall.principalCleared <= s.positions[k].loan.principal <= s.minted == s.totalDebt
      && r.divert <= r.waterfall.principalSol
  {
    PrincipalIsCounted(s, k);
  }

  /** A repayment in SOL: interest to the fee vault, principal to the pool but for what is set aside, and
      the cleared principal off both counters, without a burn. */
  lemma RepaymentMoves(s: State, k: Id, lamports: u64, held: u64, prices: Prices, slot: u64)
    requires Inv(s) && CanRepay(s, k, lamports, held, prices, slot)
    ensures var t, r := RepaidBy(s, k, lamports, held, prices, slot), ClearingOf(s, k, lamports, prices, slot);
      var w := r.waterfall;
      && k in t.positions && IsCleared(s, s.positions[k], t.positions[k], r.loan, r.divert)
      && w.principalCleared <= s.minted && r.divert <= w.principalSol
      && t == s.(positions := s.positions[k := t.positions[k]], changes := t.changes,
                 minted := s.minted - w.principalCleared, totalDebt := s.totalDebt - w.principalCleared,
                 unburned := s.unburned + w.principalCleared,
                 feeVault := s.feeVault + w.interestSol, buybackVault := s.buybackVault + r.divert,
                 pool := s.pool.(vault := s.pool.vault + (w.principalSol - r.divert)))
  {
    var r := ClearingOf(s, k, lamports, prices, slot);
    ClearingFits(s, k, lamports, prices, slot);
    ClearedByMoves(s, k, r);
    ClearedPositionIs(s, k, r);
  }

  /** What has to fit its integer width in a clearing. */
  ghost predicate ClearingFitsWidths(s: State, k: Id, prices: Prices, slot: nat, riseSol: nat, after: Loan)
    requires Active(s, k)
  {
    && CanAccrueAt(s, k, slot) && riseSol < U64 && TotalOwed(LoanAt(s, k, slot)) < U64
    && CanSettle(s.positions[k], s.rewardPerToken, after.principal)
    && (TotalOwed(after) == 0 ==> CanDivert(CollateralFor(s, k), s.positions[k].collateral, prices))
  }

  /** A payment clears unless it is worth less than one unit of riseSOL or nothing is owed. */
  lemma ClearingIsAcceptedIff(s: State, k: Id, lamports: u64, prices: Prices, slot: u64, riseSol: nat, after: Loan)
    requires Inv(s) && Active(s, k) && IsFloor(riseSol, lamports * 1_000_000_000, s.pool.rate)
    requires var l := LoanAt(s, k, slot);
      exists interest: nat, principal: nat :: Clears(l, riseSol, interest, principal)
        && after == l.(interest := l.interest - interest, principal := l.principal - principal)
    ensures CanClear(s, k, lamports, prices, slot) <==>
      0 < riseSol && 0 < TotalOwed(LoanAt(s, k, slot)) && ClearingFitsWidths(s, k, prices, slot, riseSol, after)
  {
    var l := LoanAt(s, k, slot);
    FloorUnique(riseSol, lamports * Pool.RATE_SCALE, s.pool.rate);
    ClearedIs(l, riseSol, Min(riseSol, l.interest), Min(riseSol - Min(riseSol, l.interest), l.principal));
  }

  /** A repayment in SOL is refused only if the value of what it clears is not held, or for a width. */
  lemma RepaymentIsAcceptedIff(s: State, k: Id, lamports: u64, held: u64, prices: Prices, slot: u64)
    requires Inv(s) && CanClear(s, k, lamports, prices, slot)
    ensures var r := ClearingOf(s, k, lamports, prices, slot);
      CanRepay(s, k, lamports, held, prices, slot) <==>
        && r.waterfall.interestSol + r.waterfall.principalSol <= held
        && s.pool.vault + (r.waterfall.principalSol - r.divert) < U64 && s.buybackVault + r.divert < U64
        && s.feeVault + r.waterfall.interestSol < U64
  {
    ClearingFits(s, k, lamports, prices, slot);
  }

  // --- Burning -------------------------------------------------------------------------------

  lemma BurnedPositionIs(s: State, p: Position, after: Loan)
    requires 0 <= Earned(ShareIn(p), s.rewardPerToken)
    ensures IsCleared(s, p, BurnedPosition(p, s.rewardPerToken, after), after, 0)
  {
    SettledIs(ShareIn(p), s.rewardPerToken, after.principal);
  }

  lemma BurnedDownMoves(s: State, k: Id, after: Loan, interest: nat, principal: nat)
    requires k in s.positions && 0 <= Earned(ShareIn(s.positions[k]), s.rewardPerToken)
    requires CanBurn(s.pool, interest + principal, interest) && principal <= s.minted && principal <= s.totalDebt
    ensures var t := BurnedDown(s, k, after, interest, principal);
      t == s.(positions := s.positions[k := BurnedPosition(s.positions[k], s.rewardPerToken, after)],
              changes := t.changes,
              minted := s.minted - principal, totalDebt := s.totalDebt - principal,
              pool := s.pool.(tokenSupply := s.pool.tokenSupply - (interest + principal),
                              stakingSupply := s.pool.stakingSupply - interest))
  {
  }

  /** A repayment by burning: all that is cleared leaves the token supply, its interest the staking supply,
      its principal the two counters; no SOL moves. */
  lemma BurningMoves(s: State, k: Id, amount: u64, held: u64, slot: u64, interest: nat, principal: nat)
    requires Inv(s) && CanRepayRiseSol(s, k, amount, held, slot)
    requires Clears(LoanAt(s, k, slot), amount, interest, principal)
    ensures var t, l := RepaidRiseSol(s, k, amount, held, slot), LoanAt(s, k, slot);
      && k in t.positions && principal <= s.minted
      && interest + principal <= s.pool.tokenSupply && interest <= s.pool.stakingSupply
      && IsCleared(s, s.positions[k], t.positions[k],
                   l.(interest := l.interest - interest, principal := l.principal - principal), 0)
      && t == s.(positions := s.positions[k := t.positions[k]], changes := t.changes,
                 minted := s.minted - principal, totalDebt := s.totalDebt - principal,
                 pool := s.pool.(tokenSupply := s.pool.tokenSupply - (interest + principal),
                                 stakingSupply := s.pool.stakingSupply - interest))
  {
    var l := LoanAt(s, k, slot);
    var after := l.(interest := l.interest - interest, principal := l.principal - principal);
    ClearedIs(l, amount, interest, principal);
    PrincipalIsCounted(s, k);
    BurnedPositionIs(s, s.positions[k], after);
    BurnedDownMoves(s, k, after, interest, principal);
  }

  lemma BurningIsAcceptedIff(s: State, k: Id, amount: u64, held: u64, slot: u64, interest: nat, principal: nat)
    requires Inv(s) && Active(s, k) && Clears(LoanAt(s, k, slot), amount, interest, principal)
    ensures CanRepayRiseSol(s, k, amount, held, slot) <==>
      && 0 < amount && 0 < TotalOwed(LoanAt(s, k, slot)) < U64 && interest + principal <= held
      && interest + principal <= s.pool.tokenSupply && interest <= s.pool.stakingSupply
      && CanAccrueAt(s, k, slot)
      && CanSettle(s.positions[k], s.rewardPerToken, LoanAt(s, k, slot).principal - principal)
  {
    ClearedIs(LoanAt(s, k, slot), amount, interest, principal);
  }

  /** A position that was ended: settled for no principal, its recorded collateral as it was. */
  ghost predicate IsEnded(s: State, p: Position, q: Position) {
    && q == p.(loan := Loan(0, 0, p.loan.lastSlot), phase := Ended, rewards := q.rewards)
    && IsResettled(ShareIn(p), ShareIn(q), s.rewardPerToken, 0) && q.rewards.claimed == p.rewards.claimed
  }

  lemma EndedPositionIs(s: State, p: Position)
    requires 0 <= Earned(ShareIn(p), s.rewardPerToken)
    ensures IsEnded(s, p, EndedPosition(p, s.rewardPerToken))
  {
    SettledIs(ShareIn(p), s.rewardPerToken, 0);
  }

  /** Closing burns the whole recorded debt, its interest off the staking supply too, and returns the whole
      collateral. */
  lemma ClosingMoves(s: State, k: Id, held: u64)
    requires Inv(s) && CanClose(s, k, held) && s.positions[k].collateral <= CollateralFor(s, k).entitlements
    ensures var t, p, c := Closed(s, k, held), s.positions[k], CollateralFor(s, k);
      && k in t.positions && IsEnded(s, p, t.positions[k])
      && p.loan.principal <= s.minted && p.collateral <= c.vault
      && TotalOwed(p.loan) <= s.pool.tokenSupply && p.loan.interest <= s.pool.stakingSupply
      && t == s.(positions := s.positions[k := t.positions[k]], changes := t.changes,
                 minted := s.minted - p.loan.principal, totalDebt := s.totalDebt - p.loan.principal,
                 collaterals := s.collaterals[p.mint := c.(vault := c.vault - p.collateral,
                                                           entitlements := c.entitlements - p.collateral)],
                 pool := s.pool.(tokenSupply := s.pool.tokenSupply - TotalOwed(p.loan),
                                 stakingSupply := s.pool.stakingSupply - p.loan.interest))
  {
    PrincipalIsCounted(s, k);
    EndedPositionIs(s, s.positions[k]);
  }

  lemma ClosingIsAcceptedIff(s: State, k: Id, held: u64)
    requires Inv(s) && Active(s, k)
    ensures var p := s.positions[k];
      CanClose(s, k, held) <==>
        && 0 < TotalOwed(p.loan) < U64 && TotalOwed(p.loan) <= held && p.collateral <= CollateralFor(s, k).vault
        && TotalOwed(p.loan) <= s.pool.tokenSupply && p.loan.interest <= s.pool.stakingSupply
        && CanSettle(p, s.rewardPerToken, 0)
  {
  }

  // --- Liquidation ------------------------------------------------------------------------------

  /** The refund of tokens: what the collateral is worth above the debt. */
  ghost predicate IsRefund(refund: int, usd: nat, debtUsd: nat, price: nat, unit: nat) {
    if usd <= debtUsd then refund == 0 && 0 < price else IsFloor(refund, (usd - debtUsd) * unit, price)
  }

  lemma RefundIs(refund: nat, usd: nat, debtUsd: nat, price: nat, unit: nat)
    requires IsRefund(refund, usd, debtUsd, price, unit)
    ensures 0 < price && refund == Refund(usd, debtUsd, price, unit)
  {
    if debtUsd < usd {
      FloorUnique(refund, (usd - debtUsd) * unit, price);
    } else {
      FloorUnique(0, 0, price);
      assert SaturatingSub(usd, debtUsd) * unit == 0;
    }
  }

  /** Of the swap's SOL the trigger fee comes first; the rest goes to interest and principal in proportion
      to what they are worth, rounded in favour of the principal, which gets all of it if neither is worth
      anything. What they are worth together is counted in 64 bits, saturating. */
  ghost predicate IsSplit(p: Proceeds, sol: nat, penaltyBps: nat, principalTarget: nat, interestTarget: nat) {
    && IsFloor(p.triggerFee, sol * penaltyBps, 10_000) && p.triggerFee + p.interest + p.principal == sol
    && (if principalTarget + interestTarget == 0 then p.interest == 0
        else IsFloor(p.interest, (sol - p.triggerFee) * interestTarget, Min(principalTarget + interestTarget, U64 - 1)))
  }

  lemma SplitIs(sol: nat, penaltyBps: nat, principalTarget: nat, interestTarget: nat)
    requires penaltyBps <= BPS && interestTarget < U64
    ensures IsSplit(SplitProceeds(sol, penaltyBps, principalTarget, interestTarget),
                    sol, penaltyBps, principalTarget, interestTarget)
  {
    var p := SplitProceeds(sol, penaltyBps, principalTarget, interestTarget);
    FloorIs(sol * penaltyBps, BPS);
    if 0 < principalTarget + interestTarget {
      FloorIs((sol - p.triggerFee) * interestTarget, Min(principalTarget + interestTarget, U64 - 1));
    }
    ProceedsConserve(sol, penaltyBps, principalTarget, interestTarget);
  }

  lemma EmptiedByMoves(s: State, k: Id, toPool: nat, kept: nat)
    requires Active(s, k) && 0 <= Earned(ShareIn(s.positions[k]), s.rewardPerToken)
    requires s.positions[k].collateral <= CollateralFor(s, k).vault && s.pool.vault + toPool < U64
    requires s.positions[k].collateral <= CollateralFor(s, k).entitlements
    requires s.positions[k].loan.principal <= s.minted && s.positions[k].loan.principal <= s.totalDebt
    ensures var t, p, c := EmptiedBy(s, k, toPool, kept), s.positions[k], CollateralFor(s, k);
      t == s.(positions := s.positions[k := EndedPosition(p, s.rewardPerToken)], changes := t.changes,
              minted := s.minted - p.loan.principal, totalDebt := s.totalDebt - p.loan.principal,
              unburned := s.unburned + p.loan.principal,
              collaterals := s.collaterals[p.mint := c.(vault := c.vault - p.collateral,
                                                        entitlements := c.entitlements - p.collateral)],
              feeVault := s.feeVault + kept, pool := s.pool.(vault := s.pool.vault + toPool))
  {
  }

  /** A liquidation ends the debt without a burn, takes the whole collateral out of vault and entitlements,
      and moves nothing else but SOL, into the pool's vault and the fee vault. */
  lemma LiquidationMoves(s: State, k: Id, prices: Prices, sol: u64, rent: u64)
    requires Inv(s) && CanLiquidate(s, k, prices, sol, rent)
    requires s.positions[k].collateral <= CollateralFor(s, k).entitlements
    ensures var t, p, c := Liquidated(s, k, prices, sol, rent), s.positions[k], CollateralFor(s, k);
      && k in t.positions && IsEnded(s, p, t.positions[k]) && p.loan.principal <= s.minted && p.collateral <= c.vault
      && t == s.(positions := s.positions[k := t.positions[k]], changes := t.changes,
                 minted := s.minted - p.loan.principal, totalDebt := s.totalDebt - p.loan.principal,
                 unburned := s.unburned + p.loan.principal,
                 collaterals := s.collaterals[p.mint := c.(vault := c.vault - p.collateral,
                                                           entitlements := c.entitlements - p.collateral)],
                 feeVault := t.feeVault, pool := s.pool.(vault := t.pool.vault))
  {
    PrincipalIsCounted(s, k);
    EndedPositionIs(s, s.positions[k]);
    EmptiedByMoves(s, k, ProceedsAt(s, k, prices, sol).principal, KeptAt(s, k, prices, sol, rent));
  }

  lemma RefundAtIs(s: State, k: Id, prices: Prices, usd: nat, debtUsd: nat, refund: nat)
    requires Active(s, k) && IsUsd(usd, s.positions[k].collateral, prices.collateral, CollateralFor(s, k).unit)
    requires IsSolUsd(debtUsd, TotalOwed(s.positions[k].loan), prices.sol)
    requires IsRefund(refund, usd, debtUsd, prices.collateral, CollateralFor(s, k).unit)
    ensures 0 < prices.collateral && RefundAt(s, k, prices) == refund
  {
    var p, c := s.positions[k], CollateralFor(s, k);
    FloorUnique(usd, p.collateral * prices.collateral, c.unit);
    FloorUnique(debtUsd, TotalOwed(p.loan) * prices.sol, LAMPORTS_PER_SOL);
    RefundIs(refund, usd, debtUsd, prices.collateral, c.unit);
  }

  lemma ProceedsAre(s: State, k: Id, prices: Prices, sol: nat, principalSol: nat, interestSol: nat)
    requires Active(s, k) && 0 < prices.collateral && CollateralFor(s, k).terms.penalty <= BPS
    requires IsSol(principalSol, s.positions[k].loan.principal, s.pool.rate)
    requires IsSol(interestSol, s.positions[k].loan.interest, s.pool.rate)
    ensures RefundAt(s, k, prices) < s.positions[k].collateral ==>
      IsSplit(ProceedsAt(s, k, prices, sol), sol, CollateralFor(s, k).terms.penalty,
              principalSol % U64, interestSol % U64)
    ensures s.positions[k].collateral <= RefundAt(s, k, prices) ==> ProceedsAt(s, k, prices, sol) == Proceeds(0, 0, 0)
  {
    FloorUnique(principalSol, s.positions[k].loan.principal * s.pool.rate, Pool.RATE_SCALE);
    FloorUnique(interestSol, s.positions[k].loan.interest * s.pool.rate, Pool.RATE_SCALE);
    SplitIs(sol, CollateralFor(s, k).terms.penalty, principalSol % U64, interestSol % U64);
  }

  lemma VaultsAfter(s: State, k: Id, prices: Prices, sol: u64, rent: u64)
    requires CanLiquidate(s, k, prices, sol, rent)
    ensures var t, split := Liquidated(s, k, prices, sol, rent), ProceedsAt(s, k, prices, sol);
      && t.pool.vault == s.pool.vault + split.principal
      && t.feeVault == s.feeVault
           + if s.positions[k].collateral <= RefundAt(s, k, prices) then 0 else rent + split.interest
  {
  }

  /** What the SOL vaults get of a liquidation: nothing if the refund is the whole collateral; otherwise the
      swap's SOL and the returned rent, less the liquidator's fee, which is the penalty's part of the swap. */
  lemma LiquidationPays(
    s: State, k: Id, prices: Prices, sol: u64, rent: u64,
    usd: nat, debtUsd: nat, refund: nat, principalSol: nat, interestSol: nat)
    requires CanLiquidate(s, k, prices, sol, rent)
    requires IsUsd(usd, s.positions[k].collateral, prices.collateral, CollateralFor(s, k).unit)
    requires IsSolUsd(debtUsd, TotalOwed(s.positions[k].loan), prices.sol)
    requires IsRefund(refund, usd, debtUsd, prices.collateral, CollateralFor(s, k).unit)
    requires IsSol(principalSol, s.positions[k].loan.principal, s.pool.rate)
    requires IsSol(interestSol, s.positions[k].loan.interest, s.pool.rate)
    ensures var t, p, c := Liquidated(s, k, prices, sol, rent), s.positions[k], CollateralFor(s, k);
      if refund < p.collateral then
        exists split: Proceeds :: IsSplit(split, sol, c.terms.penalty, principalSol % U64, interestSol % U64)
          && t.pool.vault == s.pool.vault + split.principal && t.feeVault == s.feeVault + rent + split.interest
          && sol + rent - (t.feeVault - s.feeVault) - (t.pool.vault - s.pool.vault) == split.triggerFee
      else t.feeVault == s.feeVault && t.pool.vault == s.pool.vault
  {
    RefundAtIs(s, k, prices, usd, debtUsd, refund);
    ProceedsAre(s, k, prices, sol, principalSol, interestSol);
    VaultsAfter(s, k, prices, sol, rent);
    if refund < s.positions[k].collateral {
      var split := ProceedsAt(s, k, prices, sol);
      assert IsSplit(split, sol, CollateralFor(s, k).terms.penalty, principalSol % U64, interestSol % U64);
    }
  }

  /** What has to fit its integer width in a liquidation. */
  ghost predicate LiquidationFits(
    s: State, k: Id, prices: Prices, sol: nat, rent: nat, usd: nat, debtUsd: nat, toPool: nat)
    requires Active(s, k)
  {
    var p, c := s.positions[k], CollateralFor(s, k);
    && p.collateral * prices.collateral < U128
    && TotalOwed(p.loan) < U64 && TotalOwed(p.loan) * prices.sol < U128 && CanRate(usd, debtUsd, c.terms.threshold)
    && (if debtUsd <= usd then (usd - debtUsd) * c.unit < U128 else true)
    && p.loan.principal * s.pool.rate < U128 && p.loan.interest * s.pool.rate < U128
    && s.feeVault + sol + rent < U64 && s.pool.vault + toPool < U64 && CanSettle(p, s.rewardPerToken, 0)
  }

  /** A position is liquidated if and only if its collateral, weighed by the threshold, is worth less than
      its debt, the vault has the collateral, and everything fits. */
  lemma LiquidationIsAcceptedIff(s: State, k: Id, prices: Prices, sol: u64, rent: u64, usd: nat, debtUsd: nat)
    requires Inv(s) && Active(s, k) && 0 < prices.collateral && 0 < prices.sol
    requires IsUsd(usd, s.positions[k].collateral, prices.collateral, CollateralFor(s, k).unit)
    requires IsSolUsd(debtUsd, TotalOwed(s.positions[k].loan), prices.sol)
    ensures CanLiquidate(s, k, prices, sol, rent) <==>
      && usd * CollateralFor(s, k).terms.threshold < debtUsd * 10_000
      && s.positions[k].collateral <= CollateralFor(s, k).vault
      && LiquidationFits(s, k, prices, sol, rent, usd, debtUsd, ProceedsAt(s, k, prices, sol).principal)
  {
    var p, c := s.positions[k], CollateralFor(s, k);
    FloorUnique(usd, p.collateral * prices.collateral, c.unit);
    FloorUnique(debtUsd, TotalOwed(p.loan) * prices.sol, LAMPORTS_PER_SOL);
    LiquidatableIff(usd, debtUsd, c.terms.threshold);
  }
}
