/** How rise-cdp splits money: the repayment waterfall, the shortfall diversion, the proceeds of a
    liquidation and the sweep of collected fees. */
module Settlement {
  import opened Arithmetic
  import opened Interest
  import opened Risk
  import Pool = StakingPool


  // --- Repayment --------------------------------------------------------------

  /** What a payment clears, in riseSOL, and where its SOL goes. */
  datatype Waterfall = Waterfall(interestCleared: nat, principalCleared: nat, interestSol: nat, principalSol: nat)

  function TotalOwed(l: Loan): nat { l.principal + l.interest }

  function InRiseSol(lamports: nat, rate: nat): nat
    requires rate > 0
  {
    lamports * Pool.RATE_SCALE / rate
  }

  function InSol(riseSol: nat, rate: nat): nat { riseSol * rate / Pool.RATE_SCALE }

  /** Interest is cleared before principal. */
  function Cleared(l: Loan, amount: nat): (nat, nat) {
    var cleared := Min(amount, TotalOwed(l));
    if cleared <= l.interest then (cleared, 0) else (l.interest, cleared - l.interest)
  }

  function Repaid(l: Loan, amount: nat): Loan {
    var (interest, principal) := Cleared(l, amount);
    l.(interest := l.interest - interest, principal := l.principal - principal)
  }

  /** Clearing takes off the loan exactly what it clears, and no more than is owed. */
  lemma ClearedLeaves(l: Loan, amount: nat)
    ensures var (interest, principal) := Cleared(l, amount);
      && interest <= l.interest && principal <= l.principal && interest + principal == Min(amount, TotalOwed(l))
      && Repaid(l, amount) == l.(interest := l.interest - interest, principal := l.principal - principal)
  {
  }

  function Repay(l: Loan, lamports: nat, rate: nat): Waterfall
    requires rate > 0
  {
    var (interest, principal) := Cleared(l, InRiseSol(lamports, rate));
    WaterfallMonotone(interest, principal, rate);
    Waterfall(interest, principal, InSol(interest, rate), InSol(interest + principal, rate) - InSol(interest, rate))
  }

  lemma WaterfallMonotone(interest: nat, principal: nat, rate: nat)
    ensures InSol(interest, rate) <= InSol(interest + principal, rate)
  {
    MulMonotone(interest, interest + principal, rate);
    FloorMonotone(interest * rate, (interest + principal) * rate, Pool.RATE_SCALE);
  }

  /** The waterfall conserves: principal is touched only once the interest is gone, all that is
      routed is the SOL value of what was cleared, and that is never more than was paid. */
  lemma WaterfallConserves(l: Loan, lamports: nat, rate: nat)
    requires rate > 0
    ensures var w := Repay(l, lamports, rate);
      var m := Repaid(l, InRiseSol(lamports, rate));
      && (0 < w.principalCleared ==> m.interest == 0)
      && TotalOwed(m) + w.interestCleared + w.principalCleared == TotalOwed(l)
      && w.interestSol + w.principalSol == InSol(w.interestCleared + w.principalCleared, rate) <= lamports
  {
    var w := Repay(l, lamports, rate);
    var cleared := w.interestCleared + w.principalCleared;
    FloorBounds(lamports * Pool.RATE_SCALE, rate);
    MulMonotone(cleared, InRiseSol(lamports, rate), rate);
    FloorAdjoint(lamports + 1, cleared * rate, Pool.RATE_SCALE);
    assert (lamports + 1) * Pool.RATE_SCALE == lamports * Pool.RATE_SCALE + Pool.RATE_SCALE;
  }

  /** The smallest payment that clears a debt: its SOL value, rounded up. */
  function Payoff(l: Loan, rate: nat): nat { (TotalOwed(l) * rate + Pool.RATE_SCALE - 1) / Pool.RATE_SCALE }

  /** A payment closes the debt if and only if it is at least the payoff. */
  lemma PayoffCloses(l: Loan, lamports: nat, rate: nat)
    requires rate > 0
    ensures TotalOwed(Repaid(l, InRiseSol(lamports, rate))) == 0 <==> Payoff(l, rate) <= lamports
  {
    FloorAdjoint(TotalOwed(l), lamports * Pool.RATE_SCALE, rate);
    FloorAdjoint(lamports + 1, TotalOwed(l) * rate + Pool.RATE_SCALE - 1, Pool.RATE_SCALE);
    assert (lamports + 1) * Pool.RATE_SCALE == lamports * Pool.RATE_SCALE + Pool.RATE_SCALE;
  }

  // --- Collateral that was seized ----------------------------------------------

  /** Tokens the vault cannot return to a borrower. */
  function Shortfall(collateral: nat, vault: nat): nat { collateral - Min(vault, collateral) }

  function TokensInSol(tokens: nat, price: nat, unit: nat, solPrice: nat): nat
    requires unit > 0 && solPrice > 0
  {
    CollateralUsd(tokens, price, unit) * LAMPORTS_PER_SOL / solPrice
  }

  /** What of the principal SOL is set aside to buy the missing collateral back. */
  function Diverted(collateral: nat, vault: nat, principalSol: nat, price: nat, unit: nat, solPrice: nat): nat
    requires unit > 0 && solPrice > 0
  {
    Min(Truncate64(TokensInSol(Shortfall(collateral, vault), price, unit, solPrice)), principalSol)
  }

  /** Nothing is diverted without a shortfall, never more than the principal paid, and the cast loses
      nothing unless the shortfall is worth 2^64 lamports or more. */
  lemma DivertedIsBounded(collateral: nat, vault: nat, principalSol: nat, price: nat, unit: nat, solPrice: nat)
    requires unit > 0 && solPrice > 0
    ensures var divert := Diverted(collateral, vault, principalSol, price, unit, solPrice);
      var worth := TokensInSol(Shortfall(collateral, vault), price, unit, solPrice);
      && divert <= Min(worth, principalSol) && (collateral <= vault ==> divert == 0)
      && (worth < U64 ==> divert == Min(worth, principalSol))
  {
  }

  /** Interest, pool and diversion are exactly the SOL value of what was cleared. */
  lemma RoutingConserves(
    l: Loan, lamports: nat, rate: nat, collateral: nat, vault: nat, price: nat, unit: nat, solPrice: nat)
    requires rate > 0 && unit > 0 && solPrice > 0
    ensures var w := Repay(l, lamports, rate);
      var divert := Diverted(collateral, vault, w.principalSol, price, unit, solPrice);
      w.interestSol + SaturatingSub(w.principalSol, divert) + divert
        == InSol(w.interestCleared + w.principalCleared, rate) <= lamports
  {
    var w := Repay(l, lamports, rate);
    WaterfallConserves(l, lamports, rate);
    DivertedIsBounded(collateral, vault, w.principalSol, price, unit, solPrice);
  }

  // --- Liquidation ------------------------------------------------------------

  /** Collateral tokens returned to the borrower: what the collateral is worth above the debt. */
  function Refund(collateralUsd: nat, debtUsd: nat, price: nat, unit: nat): nat
    requires price > 0
  {
    SaturatingSub(collateralUsd, debtUsd) * unit / price
  }

  /** The refund never exceeds the collateral, so refund and swapped tokens make it up exactly;
      and the swapped tokens are worth at least the debt whenever the collateral was. */
  lemma RefundIsCovered(tokens: nat, debtUsd: nat, price: nat, unit: nat)
    requires unit > 0 && price > 0
    ensures var refund := Refund(CollateralUsd(tokens, price, unit), debtUsd, price, unit);
      && refund <= tokens
      && (debtUsd <= CollateralUsd(tokens, price, unit) ==> debtUsd <= CollateralUsd(tokens - refund, price, unit))
  {
    var worth := CollateralUsd(tokens, price, unit);
    var excess := SaturatingSub(worth, debtUsd);
    var refund := excess * unit / price;
    FloorBounds(tokens * price, unit);
    FloorBounds(excess * unit, price);
    MulMonotone(excess, worth, unit);
    FloorAdjoint(tokens + 1, excess * unit, price);
    assert (tokens + 1) * price == tokens * price + price;
    if debtUsd <= worth {
      assert (tokens - refund) * price == tokens * price - refund * price;
      assert worth * unit == excess * unit + debtUsd * unit;
      FloorAdjoint(debtUsd, (tokens - refund) * price, unit);
    }
  }

  datatype Proceeds = Proceeds(triggerFee: nat, interest: nat, principal: nat)

  /** The part of `x` that `part` is of `whole`, rounded down. */
  function Proportion(x: nat, part: nat, whole: nat): (r: nat)
    requires part <= whole
    ensures r <= x
  {
    if whole == 0 then 0 else ShareAtMost(x, part, whole); x * part / whole
  }

  /** How the SOL that a swap returned is split. */
  function SplitProceeds(sol: nat, penaltyBps: nat, principalTarget: nat, interestTarget: nat): Proceeds
    requires penaltyBps <= BPS && interestTarget < U64
  {
    ShareAtMost(sol, penaltyBps, BPS);
    var fee := sol * penaltyBps / BPS;
    var interest := Proportion(sol - fee, interestTarget, Min(principalTarget + interestTarget, U64 - 1));
    Proceeds(fee, interest, sol - fee - interest)
  }

  /** For every swap output and all targets the three parts make it up exactly; interest gets its
      proportional part, rounded in favour of the principal. */
  lemma ProceedsConserve(sol: nat, penaltyBps: nat, principalTarget: nat, interestTarget: nat)
    requires penaltyBps <= BPS && interestTarget < U64
    ensures var p := SplitProceeds(sol, penaltyBps, principalTarget, interestTarget);
      && p.triggerFee + p.interest + p.principal == sol
      && (0 < principalTarget + interestTarget < U64 ==>
            p.interest * principalTarget <= p.principal * interestTarget
              < p.interest * principalTarget + principalTarget + interestTarget)
  {
    var p := SplitProceeds(sol, penaltyBps, principalTarget, interestTarget);
    var total := principalTarget + interestTarget;
    if 0 < total < U64 {
      FloorBounds((sol - p.triggerFee) * interestTarget, total);
      assert (p.interest + p.principal) * interestTarget == p.interest * interestTarget + p.principal * interestTarget;
      assert p.interest * total == p.interest * principalTarget + p.interest * interestTarget;
    }
  }

  // --- Fees -------------------------------------------------------------------

  const STAKING_SHARE_BPS: nat := 9_000
  const VERISE_SHARE_BPS: nat := 500

  datatype Fees = Fees(staking: nat, verise: nat, reserve: nat)

  /** `collect_cdp_fees`: 90% to the stakers, the rest halved. */
  function SplitCdpFees(total: nat): Fees {
    var staking := total * STAKING_SHARE_BPS / BPS;
    var remaining := total - staking;
    var verise := remaining * VERISE_SHARE_BPS / (BPS - STAKING_SHARE_BPS);
    Fees(staking, verise, remaining - verise)
  }

  /** Nothing is lost in the split: veRISE and the reserve get halves that differ by at most one
      lamport, together a tenth rounded up. */
  lemma CdpFeesConserve(total: nat)
    ensures var f := SplitCdpFees(total);
      && f.staking + f.verise + f.reserve == total
      && f.verise <= f.reserve <= f.verise + 1
      && total <= 10 * (f.verise + f.reserve) < total + 10
  {
  }

  /** `collect_fees`: what is not the team's or the veRISE holders' is the reserve's. */
  function Cut(total: nat, shareBps: nat): nat { Part(total, shareBps, BPS) }

  ghost predicate CutsAlwaysFit(teamBps: nat, veriseBps: nat) {
    forall total: nat :: Cut(total, teamBps) + Cut(total, veriseBps) <= total
  }

  lemma CutsFit(total: nat, teamBps: nat, veriseBps: nat)
    requires teamBps + veriseBps <= BPS
    ensures Cut(total, teamBps) + Cut(total, veriseBps) <= total
  {
    assert total * (teamBps + veriseBps) == total * teamBps + total * veriseBps;
    FloorSuperadditive(total * teamBps, total * veriseBps, BPS);
    ShareAtMost(total, teamBps + veriseBps, BPS);
  }

  /** Every collection leaves the reserve a remainder if and only if the two configured shares add
      up to at most the whole. */
  lemma CutsAlwaysFitIff(teamBps: nat, veriseBps: nat)
    ensures CutsAlwaysFit(teamBps, veriseBps) <==> teamBps + veriseBps <= BPS
  {
    if teamBps + veriseBps <= BPS {
      forall total: nat ensures Cut(total, teamBps) + Cut(total, veriseBps) <= total {
        CutsFit(total, teamBps, veriseBps);
      }
    } else {
      WholeCut(teamBps);
      WholeCut(veriseBps);
    }
  }

  lemma WholeCut(shareBps: nat)
    ensures Cut(BPS, shareBps) == shareBps
  {
  }
}
