/** Loan-to-value and liquidation arithmetic of rise-cdp, in micro-USD. Five floor divisions
    separate a withdrawal from the liquidation check; the lemmas say what survives them. */
module Risk {
  import opened Arithmetic

  const LAMPORTS_PER_SOL: nat := 1_000_000_000
  const HEALTH_SCALE: nat := 1_000_000_000_000_000_000
  const INFINITE_HEALTH: nat := U128 - 1
  const SAFE_PERCENT: nat := 80
  const DUST_USD: nat := 7

  /** `unit` is ten to the number of decimals of the collateral token. */
  function CollateralUsd(tokens: nat, price: nat, unit: nat): nat
    requires unit > 0
  {
    tokens * price / unit
  }

  function DebtUsd(owed: nat, solPrice: nat): nat { owed * solPrice / LAMPORTS_PER_SOL }

  function HealthFactor(collateralUsd: nat, debtUsd: nat, thresholdBps: nat): nat {
    if debtUsd == 0 then INFINITE_HEALTH
    else collateralUsd * thresholdBps / BPS * HEALTH_SCALE / debtUsd
  }

  predicate Liquidatable(collateralUsd: nat, debtUsd: nat, thresholdBps: nat) {
    HealthFactor(collateralUsd, debtUsd, thresholdBps) < HEALTH_SCALE
  }

  function MaxDebtUsd(collateralUsd: nat, maxLtvBps: nat): nat { collateralUsd * maxLtvBps / BPS }

  function SafeLtvBps(maxLtvBps: nat): nat { maxLtvBps * SAFE_PERCENT / 100 }

  function RequiredUsd(debtUsd: nat, maxLtvBps: nat): nat
    requires SafeLtvBps(maxLtvBps) > 0
  {
    debtUsd * BPS / SafeLtvBps(maxLtvBps)
  }

  /** Both configuration handlers insist on this. */
  predicate ValidLimits(maxLtvBps: nat, thresholdBps: nat) {
    maxLtvBps <= 9_500 && maxLtvBps < thresholdBps <= 9_800
  }

  /** The rounding in the health factor is harmless: it decides exactly the comparison of the
      collateral, weighted by the threshold, with the debt. */
  lemma LiquidatableIff(collateralUsd: nat, debtUsd: nat, thresholdBps: nat)
    ensures Liquidatable(collateralUsd, debtUsd, thresholdBps) <==> collateralUsd * thresholdBps < debtUsd * BPS
  {
    var adjusted := collateralUsd * thresholdBps / BPS;
    if debtUsd > 0 {
      FloorAdjoint(HEALTH_SCALE, adjusted * HEALTH_SCALE, debtUsd);
      FloorAdjoint(debtUsd, collateralUsd * thresholdBps, BPS);
    }
  }

  /** A debt within the maximum loan-to-value is not liquidatable: there is no rounding exception. */
  lemma WithinLtvIsHealthy(collateralUsd: nat, debtUsd: nat, maxLtvBps: nat, thresholdBps: nat)
    requires debtUsd <= MaxDebtUsd(collateralUsd, maxLtvBps) && maxLtvBps <= thresholdBps
    ensures !Liquidatable(collateralUsd, debtUsd, thresholdBps)
  {
    LiquidatableIff(collateralUsd, debtUsd, thresholdBps);
    FloorBounds(collateralUsd * maxLtvBps, BPS);
    MulMonotone(maxLtvBps, thresholdBps, collateralUsd);
  }

  /** `open_position` limits the mint in lamports; the same debt in USD is within the limit. */
  lemma OpeningIsWithinLtv(minted: nat, maxUsd: nat, solPrice: nat)
    requires solPrice > 0 && minted <= maxUsd * LAMPORTS_PER_SOL / solPrice
    ensures DebtUsd(minted, solPrice) <= maxUsd
  {
    FloorAdjoint(minted, maxUsd * LAMPORTS_PER_SOL, solPrice);
    FloorAdjoint(maxUsd + 1, minted * solPrice, LAMPORTS_PER_SOL);
    assert (maxUsd + 1) * LAMPORTS_PER_SOL == maxUsd * LAMPORTS_PER_SOL + LAMPORTS_PER_SOL;
  }

  /** `borrow_more` values the debt through the exchange rate, the liquidation check does not:
      the former is never less while a riseSOL is worth at least one SOL. */
  lemma RateOverstatesDebt(owed: nat, rate: nat, rateScale: nat, solPrice: nat)
    requires 0 < rateScale <= rate
    ensures DebtUsd(owed, solPrice) <= DebtUsd(owed * rate / rateScale, solPrice)
  {
    MulMonotone(rateScale, rate, owed);
    FloorAdjoint(owed, owed * rate, rateScale);
    MulMonotone(owed, owed * rate / rateScale, solPrice);
    FloorMonotone(owed * solPrice, owed * rate / rateScale * solPrice, LAMPORTS_PER_SOL);
  }

  // --- Withdrawing excess collateral ------------------------------------------

  /** The check of `withdraw_excess`. */
  predicate CanWithdraw(tokens: nat, amount: nat, price: nat, unit: nat, debtUsd: nat, maxLtvBps: nat)
    requires unit > 0
  {
    var value := CollateralUsd(tokens, price, unit);
    && SafeLtvBps(maxLtvBps) > 0 && 0 < amount <= tokens
    && RequiredUsd(debtUsd, maxLtvBps) < value
    && CollateralUsd(amount, price, unit) <= value - RequiredUsd(debtUsd, maxLtvBps)
  }

  /** Valuing what is left rounds down at most one micro-USD below the requirement. */
  lemma LeftoverValue(tokens: nat, amount: nat, price: nat, unit: nat, debtUsd: nat, maxLtvBps: nat)
    requires unit > 0 && CanWithdraw(tokens, amount, price, unit, debtUsd, maxLtvBps)
    ensures RequiredUsd(debtUsd, maxLtvBps) <= CollateralUsd(tokens - amount, price, unit) + 1
  {
    assert tokens * price == amount * price + (tokens - amount) * price;
    FloorSuperadditive(amount * price, (tokens - amount) * price, unit);
  }

  /** One micro-USD short of the requirement still clears the threshold once the debt is not dust. */
  lemma RequirementHasMargin(debtUsd: nat, left: nat, maxLtvBps: nat, thresholdBps: nat)
    requires ValidLimits(maxLtvBps, thresholdBps) && SafeLtvBps(maxLtvBps) > 0 && DUST_USD <= debtUsd
    requires RequiredUsd(debtUsd, maxLtvBps) <= left + 1
    ensures debtUsd * BPS <= left * thresholdBps
  {
    var safe := SafeLtvBps(maxLtvBps);
    if debtUsd == DUST_USD && 8_750 < thresholdBps {
      FloorAdjoint(9, debtUsd * BPS, safe);
      MulMonotone(8, left, thresholdBps);
    } else {
      FloorBounds(debtUsd * BPS, safe);
      MulMonotone(RequiredUsd(debtUsd, maxLtvBps), left + 1, safe);
      assert (left + 1) * safe + safe == (left + 2) * safe;
      MulMonotone(5 * safe, 4 * thresholdBps, left + 2);
      assert (left + 2) * (5 * safe) == 5 * ((left + 2) * safe);
      assert (left + 2) * (4 * thresholdBps) == 4 * (left * thresholdBps) + 8 * thresholdBps;
    }
  }

  /** After a withdrawal, a debt of at least 7 micro-USD is not liquidatable at the same prices. */
  lemma WithdrawalLeavesMargin(
    tokens: nat, amount: nat, price: nat, unit: nat, debtUsd: nat, maxLtvBps: nat, thresholdBps: nat)
    requires unit > 0 && CanWithdraw(tokens, amount, price, unit, debtUsd, maxLtvBps)
    requires ValidLimits(maxLtvBps, thresholdBps) && (debtUsd == 0 || DUST_USD <= debtUsd)
    ensures !Liquidatable(CollateralUsd(tokens - amount, price, unit), debtUsd, thresholdBps)
  {
    var left := CollateralUsd(tokens - amount, price, unit);
    LiquidatableIff(left, debtUsd, thresholdBps);
    if debtUsd > 0 {
      LeftoverValue(tokens, amount, price, unit, debtUsd, maxLtvBps);
      RequirementHasMargin(debtUsd, left, maxLtvBps, thresholdBps);
    }
  }

  ghost predicate WithdrawalsAreSafe(debtUsd: nat) {
    forall tokens: nat, amount: nat, price: nat, unit: nat, maxLtvBps: nat, thresholdBps: nat ::
      unit > 0 && ValidLimits(maxLtvBps, thresholdBps) && CanWithdraw(tokens, amount, price, unit, debtUsd, maxLtvBps)
      ==> !Liquidatable(CollateralUsd(tokens - amount, price, unit), debtUsd, thresholdBps)
  }

  /** Limits under which a debt of so many micro-USD can be left short. */
  function TightLtvBps(debtUsd: nat): nat
    requires 0 < debtUsd < DUST_USD
  {
    match debtUsd
    case 1 => 1_390 case 2 => 2_779 case 3 => 4_168 case 4 => 5_557 case 5 => 6_945 case _ => 8_334
  }

  /** The limits are tight: the debt needs 8 micro-USD of collateral, and 7 are too few. */
  lemma TightLtvFits(debtUsd: nat)
    requires 0 < debtUsd < DUST_USD
    ensures var ltv := TightLtvBps(debtUsd);
      && SafeLtvBps(ltv) > 0 && RequiredUsd(debtUsd, ltv) == 8
      && 7 * (ltv + 1) < debtUsd * BPS && ValidLimits(ltv, ltv + 1)
  {
    match debtUsd
    case 1 => assert SafeLtvBps(1390) == 1112 && RequiredUsd(1, 1390) == 8;
    case 2 => assert SafeLtvBps(2779) == 2223 && RequiredUsd(2, 2779) == 8;
    case 3 => assert SafeLtvBps(4168) == 3334 && RequiredUsd(3, 4168) == 8;
    case 4 => assert SafeLtvBps(5557) == 4445 && RequiredUsd(4, 5557) == 8;
    case 5 => assert SafeLtvBps(6945) == 5556 && RequiredUsd(5, 6945) == 8;
    case _ => assert SafeLtvBps(8334) == 6667 && RequiredUsd(6, 8334) == 8;
  }

  /** Smaller debts do become liquidatable: half-priced tokens whose two halves are both rounded. */
  lemma DustIsNotSafe(debtUsd: nat)
    requires 0 < debtUsd < DUST_USD
    ensures !WithdrawalsAreSafe(debtUsd)
  {
    var ltv := TightLtvBps(debtUsd);
    TightLtvFits(debtUsd);
    assert CollateralUsd(18, 5, 10) == 9 && CollateralUsd(3, 5, 10) == 1 && CollateralUsd(18 - 3, 5, 10) == 7;
    assert CanWithdraw(18, 3, 5, 10, debtUsd, ltv);
    LiquidatableIff(7, debtUsd, ltv + 1);
  }

  /** The dust bound is exact: withdrawals at a given debt value are always safe if and only if
      that debt is zero or at least 7 micro-USD. */
  lemma WithdrawalsAreSafeIff(debtUsd: nat)
    ensures WithdrawalsAreSafe(debtUsd) <==> debtUsd == 0 || DUST_USD <= debtUsd
  {
    if debtUsd == 0 || DUST_USD <= debtUsd {
      forall tokens: nat, amount: nat, price: nat, unit: nat, maxLtvBps: nat, thresholdBps: nat
        | unit > 0 && ValidLimits(maxLtvBps, thresholdBps) && CanWithdraw(tokens, amount, price, unit, debtUsd, maxLtvBps)
        ensures !Liquidatable(CollateralUsd(tokens - amount, price, unit), debtUsd, thresholdBps)
      {
        WithdrawalLeavesMargin(tokens, amount, price, unit, debtUsd, maxLtvBps, thresholdBps);
      }
    } else {
      DustIsNotSafe(debtUsd);
    }
  }
}
