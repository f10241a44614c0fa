/** What borrowers, stakers and the treasury can rely on, over whole runs of the CDP engine and
    the programs it calls. */
module CdpTheorems {
  import opened Arithmetic
  import opened MapSums
  import opened Risk
  import opened Settlement
  import opened Cdp
  import opened CdpInvariants
  import opened CdpSteps
  import opened CdpCustody
  import Pool = StakingPool
  import Gov = Governance
  import Staking = StakingTheorems
  import Locks = GovernanceTheorems

  // --- Debt and supply ------------------------------------------------------------

  /** The debt ceiling's counter, the rewards' counter and the debts themselves never disagree, and
      no debt exceeds the counters it will be subtracted from. */
  lemma DebtCountersAgree(s0: State, ixs: seq<Instruction>)
    requires Initial(s0)
    ensures var s := Run(s0, ixs);
      && s.minted == s.totalDebt == Sum(s.positions, PrincipalOf)
      && (forall k :: k in s.positions ==> s.positions[k].loan.principal <= s.minted)
  {
    InitialInv(s0);
    RunKeepsInv(s0, ixs);
    var s := Run(s0, ixs);
    forall k | k in s.positions ensures s.positions[k].loan.principal <= s.minted {
      PrincipalIsCounted(s, k);
    }
  }

  /** The riseSOL mint against the books of two programs: all there is was staked for, is owed, or
      was borrowed and cleared without being burned. */
  lemma SupplyIdentity(s0: State, ixs: seq<Instruction>)
    requires Initial(s0)
    ensures var s := Run(s0, ixs);
      s.pool.tokenSupply == s.pool.stakingSupply + Sum(s.positions, PrincipalOf) + s.unburned
  {
    InitialInv(s0);
    RunKeepsInv(s0, ixs);
  }

  predicate InSolOrSwapped(ix: Instruction) { ix.RepayDebt? || ix.RepayDebtSpl? || ix.Liquidate? }

  /** What was cleared without a burn is exactly the principal that repayments in SOL or swapped
      tokens and liquidations took off their positions. */
  lemma UnburnedIsExact(s: State, ix: Instruction)
    requires Inv(s) && InSolOrSwapped(ix) && AcceptsOnPosition(s, ix)
    ensures var t := ApplyOnPosition(s, ix);
      t.unburned - s.unburned == PrincipalAt(s, ix.position) - PrincipalAt(t, ix.position)
  {
  }

  lemma OthersLeaveUnburned(s: State, ix: Instruction)
    requires Accepts(s, ix) && !InSolOrSwapped(ix)
    ensures Apply(s, ix).unburned == s.unburned
  {
  }

  // --- Collateral -------------------------------------------------------------------

  /** Collateral conservation per mint, in every regular run: vault and seized tokens make up the
      entitlements and what was bought back, and the entitlements are what the positions hold. */
  lemma CollateralConservation(s0: State, ixs: seq<Instruction>, mint: Id)
    requires Initial(s0) && RegularRun(s0, ixs) && mint in Run(s0, ixs).collaterals
    ensures var s := Run(s0, ixs);
      var c := s.collaterals[mint];
      c.vault + c.seized == c.entitlements + c.settled && c.entitlements == Sum(s.positions, HeldOf(mint))
  {
    InitialInv(s0);
    RunKeepsCustody(s0, ixs);
    assert MintInCustody(Run(s0, ixs), mint);
  }

  /** The vault holds what a repaid borrower is owed unless more of the mint was seized than bought
      back. */
  lemma VaultCoversRepaid(s: State, k: Id)
    requires Shaped(s) && Custody(s) && k in s.positions && s.positions[k].phase.AwaitingClaim?
    requires CollateralFor(s, k).seized <= CollateralFor(s, k).settled
    ensures s.positions[k].collateral <= CollateralFor(s, k).entitlements <= CollateralFor(s, k).vault
  {
    HoldingIsEntitled(s, k);
    assert MintInCustody(s, s.positions[k].mint);
  }

  /** Such a borrower gets every token back; no price and no treasury is needed. */
  lemma RepaidCollateralIsReturned(s: State, k: Id, prices: Prices, rent: u64)
    requires Shaped(s) && Custody(s) && k in s.positions && s.positions[k].phase.AwaitingClaim?
    requires CollateralFor(s, k).seized <= CollateralFor(s, k).settled
    ensures CanClaim(s, k, prices, rent)
    ensures var t := Claimed(s, k, prices, rent);
      var p, c := s.positions[k], CollateralFor(s, k);
      && t.positions == s.positions - {k} && t.gov == s.gov && t.buybackVault == s.buybackVault
      && t.collaterals[p.mint].vault == c.vault - p.collateral
      && t.collaterals[p.mint].entitlements == c.entitlements - p.collateral
      && t.collaterals[p.mint].settled == c.settled
  {
    VaultCoversRepaid(s, k);
  }

  /** A claim whose shortfall was paid for when the debt was repaid never fails; any other depends on
      the treasury only. */
  lemma ClaimGoesThrough(s: State, k: Id, prices: Prices, rent: u64)
    requires Inv(s) && k in s.positions && s.positions[k].phase.AwaitingClaim?
    requires CollateralFor(s, k).vault >= s.positions[k].collateral || 0 < s.positions[k].buyback
    ensures CanClaim(s, k, prices, rent) && Claimed(s, k, prices, rent).gov == s.gov
  {
    SumAtLeast(s.positions, BuybackOf, k);
  }

  // --- Health -------------------------------------------------------------------------

  /** Opening never creates a liquidatable position: at the same prices the liquidation that
      follows is refused. */
  lemma OpeningIsHealthy(
    s: State, k: Id, mint: Id, tokens: u64, amount: u64, held: u64, prices: Prices, slot: u64, sol: u64, rent: u64)
    requires Inv(s) && CanOpen(s, k, mint, tokens, amount, held, prices)
    ensures !CanLiquidate(Opened(s, k, mint, tokens, amount, prices, slot), k, prices, sol, rent)
  {
    var c := s.collaterals[mint];
    var usd := CollateralUsd(tokens, prices.collateral, c.unit);
    OpeningIsWithinLtv(amount, MaxDebtUsd(usd, c.terms.maxLtv), prices.sol);
    WithinLtvIsHealthy(usd, DebtUsd(amount, prices.sol), c.terms.maxLtv, c.terms.threshold);
  }

  /** Neither does borrowing more. The loan-to-value check values the debt through the exchange rate
      and the liquidation check does not: the pool's invariant, a rate of at least one, closes the gap. */
  lemma BorrowingIsHealthy(s: State, k: Id, amount: u64, prices: Prices, slot: u64, sol: u64, rent: u64)
    requires Inv(s) && CanBorrow(s, k, amount, prices, slot)
    ensures !CanLiquidate(Borrowed(s, k, amount, prices, slot), k, prices, sol, rent)
  {
    var p, c, owed := s.positions[k], CollateralFor(s, k), TotalOwed(LoanAt(s, k, slot)) + amount;
    var usd := CollateralUsd(p.collateral, prices.collateral, c.unit);
    RateOverstatesDebt(owed, s.pool.rate, Pool.RATE_SCALE, prices.sol);
    WithinLtvIsHealthy(usd, DebtUsd(owed, prices.sol), c.terms.maxLtv, c.terms.threshold);
  }

  /** Nor does withdrawing collateral, unless the debt is worth between 1 and 6 micro-USD. */
  lemma WithdrawingIsHealthy(s: State, k: Id, amount: u64, prices: Prices, slot: u64, sol: u64, rent: u64)
    requires Inv(s) && CanWithdrawAt(s, k, amount, prices, slot)
    requires var debtUsd := DebtUsd(TotalOwed(LoanAt(s, k, slot)), prices.sol); debtUsd == 0 || DUST_USD <= debtUsd
    ensures !CanLiquidate(Withdrawn(s, k, amount, prices, slot), k, prices, sol, rent)
  {
    var p, c := s.positions[k], CollateralFor(s, k);
    WithdrawalLeavesMargin(p.collateral, amount, prices.collateral, c.unit,
                           DebtUsd(TotalOwed(LoanAt(s, k, slot)), prices.sol), c.terms.maxLtv, c.terms.threshold);
  }

  /** New debt stays below the ceiling on all debt, and within its twentieth for one loan. */
  lemma LendingRespectsCeiling(s: State, ix: Instruction)
    requires (ix.OpenPosition? || ix.BorrowMore?) && AcceptsOnPosition(s, ix)
    ensures var t := ApplyOnPosition(s, ix);
      && t.minted <= CeilingNow(t) && CeilingNow(t) == CeilingNow(s)
      && PrincipalAt(t, ix.position) * BPS <= CeilingNow(t) * MAX_SINGLE_LOAN_BPS
  {
    FloorAdjoint(PrincipalAt(ApplyOnPosition(s, ix), ix.position), CeilingNow(s) * MAX_SINGLE_LOAN_BPS, BPS);
  }

  lemma WorthAtMost(tokens: nat, usd: nat, price: nat, unit: pos)
    requires 0 < price && tokens <= usd * unit / price
    ensures CollateralUsd(tokens, price, unit) <= usd
  {
    FloorAdjoint(tokens, usd * unit, price);
    FloorAdjoint(usd + 1, tokens * price, unit);
    assert (usd + 1) * unit == usd * unit + unit;
  }

  lemma SeizableIsWorthAtMost(s: State, c: Collateral, prices: Prices, tokens: nat)
    requires 0 < prices.collateral && tokens <= MaxSeizure(s, c, prices)
    ensures CollateralUsd(tokens, prices.collateral, c.unit)
         <= DebtUsd(SaturatingSub(s.pool.pending, s.pool.liquid), prices.sol)
  {
    var usd := DebtUsd(SaturatingSub(s.pool.pending, s.pool.liquid), prices.sol);
    assert MaxSeizure(s, c, prices) <= usd * c.unit / prices.collateral;
    WorthAtMost(tokens, usd, prices.collateral, c.unit);
  }

  /** A seizure takes no more than is worth the pool's liquidity shortfall, and no entitlement. */
  lemma SeizureIsCapped(s: State, mint: Id, amount: u64, prices: Prices, sol: u64, rent: u64)
    requires CanSeize(s, mint, amount, prices, sol, rent)
    ensures var c, d := s.collaterals[mint], Seized(s, mint, amount, prices, sol, rent).collaterals[mint];
      && 0 < c.vault - d.vault == d.seized - c.seized <= amount && d.entitlements == c.entitlements
      && CollateralUsd(c.vault - d.vault, prices.collateral, c.unit)
           <= DebtUsd(SaturatingSub(s.pool.pending, s.pool.liquid), prices.sol)
  {
    var c := s.collaterals[mint];
    SeizableIsWorthAtMost(s, c, prices, Min(amount, MaxSeizure(s, c, prices)));
  }

  // --- Repayment and liquidation --------------------------------------------------------

  /** A payment in SOL ends the debt if and only if it is at least the debt's value, rounded up;
      what it does not end stays open. */
  lemma RepaymentEndsDebtIff(s: State, k: Id, lamports: u64, held: u64, prices: Prices, slot: u64)
    requires Inv(s) && CanRepay(s, k, lamports, held, prices, slot)
    ensures var q := RepaidBy(s, k, lamports, held, prices, slot).positions[k];
      && (q.phase.AwaitingClaim? <==> Payoff(LoanAt(s, k, slot), s.pool.rate) <= lamports)
      && (q.phase.Open? <==> 0 < TotalOwed(q.loan))
  {
    PayoffCloses(LoanAt(s, k, slot), lamports, s.pool.rate);
  }

  /** What a clearing routes is the SOL value of what it clears. */
  lemma ClearingConserves(s: State, k: Id, lamports: nat, prices: Prices, slot: nat)
    requires CanClear(s, k, lamports, prices, slot)
    ensures var r, l := ClearingOf(s, k, lamports, prices, slot), LoanAt(s, k, slot);
      && r.loan.interest <= l.interest && TotalOwed(r.loan) <= TotalOwed(l) && r.divert <= r.waterfall.principalSol
      && r.waterfall.interestSol + r.waterfall.principalSol
           == InSol(TotalOwed(l) - TotalOwed(r.loan), s.pool.rate) <= lamports
      && r.waterfall.interestSol == InSol(l.interest - r.loan.interest, s.pool.rate)
  {
    WaterfallConserves(LoanAt(s, k, slot), lamports, s.pool.rate);
  }

  /** Every lamport the borrower pays arrives: as interest in the fee vault, as principal in the pool,
      or set aside for this borrower's collateral; together the SOL value of what was cleared. */
  lemma RepaymentConserves(s: State, k: Id, lamports: u64, held: u64, prices: Prices, slot: u64)
    requires CanRepay(s, k, lamports, held, prices, slot)
    ensures var t, l := RepaidBy(s, k, lamports, held, prices, slot), LoanAt(s, k, slot);
      var r := ClearingOf(s, k, lamports, prices, slot);
      && t.positions[k].loan == r.loan && TotalOwed(r.loan) <= TotalOwed(l)
      && (t.feeVault - s.feeVault) + (t.pool.vault - s.pool.vault) + (t.buybackVault - s.buybackVault)
           == InSol(TotalOwed(l) - TotalOwed(r.loan), s.pool.rate) <= Min(lamports, held)
      && t.feeVault - s.feeVault == InSol(l.interest - r.loan.interest, s.pool.rate)
      && (CollateralFor(s, k).vault >= s.positions[k].collateral ==> t.buybackVault == s.buybackVault)
  {
    ClearingConserves(s, k, lamports, prices, slot);
  }

  /** A payment swapped from another token does to the debt, the pool and the buyback vault what the
      same lamports would have done; what is left of it, interest and change, stays in the fee vault. */
  lemma SwappedRepaymentIsARepayment(s: State, k: Id, sol: u64, rent: u64, held: u64, prices: Prices, slot: u64)
    requires CanRepaySpl(s, k, sol, rent, prices, slot) && CanRepay(s, k, sol, held, prices, slot)
    ensures var t, u := RepaidSpl(s, k, sol, rent, prices, slot), RepaidBy(s, k, sol, held, prices, slot);
      var r := ClearingOf(s, k, sol, prices, slot);
      && t.(feeVault := 0) == u.(feeVault := 0)
      && t.feeVault - u.feeVault == rent + sol - InSol(TotalOwed(LoanAt(s, k, slot)) - TotalOwed(r.loan), s.pool.rate)
      && u.feeVault + rent <= t.feeVault
  {
    ClearingConserves(s, k, sol, prices, slot);
  }

  /** Liquidation conserves: refund and swapped tokens are the collateral, which leaves vault and
      entitlements exactly; fee, interest and principal are the swap's output. */
  lemma LiquidationConserves(s: State, k: Id, prices: Prices, sol: u64, rent: u64)
    requires Inv(s) && Custody(s) && CanLiquidate(s, k, prices, sol, rent)
    ensures var p, c, t := s.positions[k], CollateralFor(s, k), Liquidated(s, k, prices, sol, rent);
      var d, split := t.collaterals[p.mint], ProceedsAt(s, k, prices, sol);
      && RefundAt(s, k, prices) <= p.collateral
      && c.vault - d.vault == p.collateral == c.entitlements - d.entitlements
      && t.minted == s.minted - p.loan.principal && t.totalDebt == s.totalDebt - p.loan.principal
      && TotalOwed(t.positions[k].loan) == 0
      && (RefundAt(s, k, prices) < p.collateral ==>
            split.triggerFee + (t.feeVault - s.feeVault) + (t.pool.vault - s.pool.vault) == sol + rent)
  {
    var p, c := s.positions[k], CollateralFor(s, k);
    HoldingIsEntitled(s, k);
    PrincipalIsCounted(s, k);
    RefundIsCovered(p.collateral, DebtUsd(TotalOwed(p.loan), prices.sol), prices.collateral, c.unit);
    ProceedsConserve(sol, c.terms.penalty, Truncate64(InSol(p.loan.principal, s.pool.rate)),
                     Truncate64(InSol(p.loan.interest, s.pool.rate)));
  }

  // --- Calls into the staking pool ---------------------------------------------------------

  /** Sweeping the fee vault never fails on the credit to the pool, whatever the pool's vault held:
      only integer widths can stop it. */
  lemma CdpFeesAreAlwaysCredited(s: State, rent: u64)
    requires Inv(s)
    ensures CanCollectCdpFees(s, rent) <==>
      (rent < s.feeVault ==>
         && (s.feeVault - rent) * STAKING_SHARE_BPS < U64
         && s.pool.vault + Sweepable(s, rent).staking < U64
         && Gov.CanDistribute(s.gov, Sweepable(s, rent).verise, Sweepable(s, rent).reserve))
  {
  }

  /** And nothing of the fees is lost on the way to pool, veRISE holders and reserve. */
  lemma CdpFeesConserved(s: State, rent: u64)
    requires Inv(s) && CanCollectCdpFees(s, rent)
    ensures var t := CdpFeesCollected(s, rent);
      s.feeVault - t.feeVault == (t.pool.vault - s.pool.vault) + (t.gov.veriseVault - s.gov.veriseVault)
                                 + (t.gov.reserveVault - s.gov.reserveVault)
    ensures var t := CdpFeesCollected(s, rent);
      t.pool.totalSol - s.pool.totalSol == t.pool.vault - s.pool.vault && s.pool.rate <= t.pool.rate
  {
    if rent < s.feeVault {
      CdpFeesConserve(s.feeVault - rent);
      CreditKeepsInv(s.pool, Sweepable(s, rent).staking);
    }
  }

  /** SOL that a seizure brings in is always registered with the pool. */
  lemma SeizedLiquidityIsRegistered(s: State, mint: Id, amount: u64, prices: Prices, sol: u64, rent: u64)
    requires Inv(s) && CanSeize(s, mint, amount, prices, sol, rent)
    ensures var t := Seized(s, mint, amount, prices, sol, rent);
      t.pool.liquid == s.pool.liquid + sol && t.pool.vault == s.pool.vault + sol + rent
    ensures forall more: u64 :: 0 < more && s.pool.vault + more + rent < U64 ==>
      CanSeize(s, mint, amount, prices, more, rent)
  {
  }

  /** The exchange rate never falls, whatever the three programs do to each other's books. */
  lemma StepKeepsRate(s: State, ix: Instruction)
    requires Inv(s) && Accepts(s, ix)
    ensures s.pool.rate <= Apply(s, ix).pool.rate
  {
    if OnPosition(ix) {
      PositionsKeepRate(s, ix);
    } else {
      ProtocolKeepsRate(s, ix);
    }
  }

  lemma PositionsKeepRate(s: State, ix: Instruction)
    requires OnPosition(ix) && AcceptsOnPosition(s, ix)
    ensures ApplyOnPosition(s, ix).pool.rate == s.pool.rate
  {
  }

  lemma ProtocolKeepsRate(s: State, ix: Instruction)
    requires Inv(s) && !OnPosition(ix) && AcceptsOnProtocol(s, ix)
    ensures s.pool.rate <= ApplyOnProtocol(s, ix).pool.rate
  {
    match ix
    case PoolInstruction(own) => Pool.StepKeepsInv(s.pool, own);
    case CollectCdpFees(rent) => CdpFeesConserved(s, rent);
    case _ =>
  }

  lemma {:induction false} RunKeepsRate(s: State, ixs: seq<Instruction>)
    requires Inv(s)
    ensures s.pool.rate <= Run(s, ixs).pool.rate
    decreases |ixs|
  {
    if ixs == [] {
    } else {
      StepKeepsInv(s, ixs[0]);
      if Accepts(s, ixs[0]) { StepKeepsRate(s, ixs[0]); }
      RunKeepsRate(Step(s, ixs[0]), ixs[1..]);
    }
  }

  /** The pool's backing chain, with the CDP engine minting, burning and sweeping around it. */
  lemma BackingChain(s0: State, ixs: seq<Instruction>)
    requires Initial(s0)
    ensures var p := Run(s0, ixs).pool;
      && Pool.RATE_SCALE <= p.rate && p.rate * p.stakingSupply <= p.totalSol * Pool.RATE_SCALE
      && p.totalSol <= p.liquid && p.liquid + p.pending <= p.vault && p.pending == Sum(p.tickets, Pool.SolOf)
  {
    InitialInv(s0);
    RunKeepsInv(s0, ixs);
  }

  /** The ticket's own redemption, the one instruction that ends it. */
  predicate Redeems(ix: Instruction, ticket: Id) {
    ix.PoolInstruction? && ix.pool.ClaimUnstake? && ix.pool.ticket == ticket
  }

  ghost predicate SameTicket(a: Pool.State, b: Pool.State, ticket: Id) {
    ticket in a.tickets && ticket in b.tickets && a.tickets[ticket] == b.tickets[ticket] && a.paused == b.paused
  }

  lemma PositionsKeepTicket(s: State, ix: Instruction, ticket: Id)
    requires ticket in s.pool.tickets && OnPosition(ix) && AcceptsOnPosition(s, ix)
    ensures SameTicket(s.pool, ApplyOnPosition(s, ix).pool, ticket)
  {
  }

  lemma CreditKeepsTicket(pool: Pool.State, share: nat, ticket: Id)
    requires ticket in pool.tickets && CanCredit(pool, share)
    ensures SameTicket(pool, Credited(pool, share), ticket)
  {
  }

  lemma CdpFeesKeepTicket(s: State, rent: u64, ticket: Id)
    requires ticket in s.pool.tickets && CanCollectCdpFees(s, rent)
    ensures SameTicket(s.pool, CdpFeesCollected(s, rent).pool, ticket)
  {
    if rent < s.feeVault { CreditKeepsTicket(s.pool, Sweepable(s, rent).staking, ticket); }
  }

  lemma FeesKeepTicket(s: State, epoch: u64, ticket: Id)
    requires ticket in s.pool.tickets && CanCollectFees(s, epoch)
    ensures SameTicket(s.pool, FeesCollected(s, epoch).pool, ticket)
  {
  }

  lemma SeizingKeepsTicket(s: State, mint: Id, amount: u64, prices: Prices, sol: u64, rent: u64, ticket: Id)
    requires ticket in s.pool.tickets && CanSeize(s, mint, amount, prices, sol, rent)
    ensures SameTicket(s.pool, Seized(s, mint, amount, prices, sol, rent).pool, ticket)
  {
  }

  lemma ProtocolKeepsTicket(s: State, ix: Instruction, ticket: Id)
    requires ticket in s.pool.tickets && !OnPosition(ix) && !ix.PoolInstruction? && AcceptsOnProtocol(s, ix)
    ensures SameTicket(s.pool, ApplyOnProtocol(s, ix).pool, ticket)
  {
    match ix
    case CollectCdpFees(rent) => CdpFeesKeepTicket(s, rent, ticket);
    case CollectFees(epoch) => FeesKeepTicket(s, epoch, ticket);
    case RedeemCollateral(mint, amount, prices, sol, rent) =>
      SeizingKeepsTicket(s, mint, amount, prices, sol, rent, ticket);
    case _ =>
  }

  lemma PoolKeepsTicket(s: State, own: Pool.Instruction, ticket: Id)
    requires Inv(s) && ticket in s.pool.tickets && Pool.Accepts(s.pool, own)
    requires !Redeems(PoolInstruction(own), ticket)
    ensures SameTicket(s.pool, Pool.Apply(s.pool, own), ticket)
  {
    Staking.TicketSurvivesStep(s.pool, own, ticket);
  }

  lemma TicketSurvivesStep(s: State, ix: Instruction, ticket: Id)
    requires Inv(s) && ticket in s.pool.tickets && Accepts(s, ix) && !Redeems(ix, ticket)
    ensures SameTicket(s.pool, Apply(s, ix).pool, ticket)
  {
    if OnPosition(ix) {
      PositionsKeepTicket(s, ix, ticket);
    } else if ix.PoolInstruction? {
      PoolKeepsTicket(s, ix.pool, ticket);
    } else {
      ProtocolKeepsTicket(s, ix, ticket);
    }
  }

  /** No program but the pool, and in the pool nothing but its own redemption, touches a ticket. */
  lemma {:induction false} TicketSurvives(s: State, ixs: seq<Instruction>, ticket: Id)
    requires Inv(s) && ticket in s.pool.tickets
    requires forall i :: 0 <= i < |ixs| ==> !Redeems(ixs[i], ticket)
    ensures SameTicket(s.pool, Run(s, ixs).pool, ticket)
    decreases |ixs|
  {
    if ixs == [] {
    } else {
      StepKeepsInv(s, ixs[0]);
      if Accepts(s, ixs[0]) { TicketSurvivesStep(s, ixs[0], ticket); }
      TicketSurvives(Step(s, ixs[0]), ixs[1..], ticket);
    }
  }

  /** What a request locks, in a state it is accepted in. */
  lemma RequestLocks(s: State, owner: Id, amount: u64, held: u64, epoch: u64)
    requires Inv(s) && Pool.Accepts(s.pool, Pool.UnstakeRiseSol(owner, amount, held, epoch))
    ensures var t := Step(s, PoolInstruction(Pool.UnstakeRiseSol(owner, amount, held, epoch)));
      && Inv(t) && s.pool.nonce in t.pool.tickets && !t.pool.paused
      && t.pool.tickets[s.pool.nonce]
           == Pool.Ticket(owner, amount * s.pool.rate / Pool.RATE_SCALE, epoch + Pool.UNSTAKE_EPOCH_DELAY)
  {
    StepKeepsInv(s, PoolInstruction(Pool.UnstakeRiseSol(owner, amount, held, epoch)));
  }

  /** A ticket is paid its SOL from its claim epoch on, and not before. */
  lemma TicketIsPaid(s: State, ticket: Id, later: u64)
    requires Inv(s) && ticket in s.pool.tickets && !s.pool.paused
    ensures var claim := PoolInstruction(Pool.ClaimUnstake(ticket, later));
      && (Accepts(s, claim) <==> s.pool.tickets[ticket].claimableEpoch <= later)
      && (Accepts(s, claim) ==> Step(s, claim).pool.vault == s.pool.vault - s.pool.tickets[ticket].sol)
  {
    Pool.RedeemedKeepsInv(s.pool, ticket);
  }

  /** A redemption is paid the SOL value locked at its request, from two epochs later on, whatever
      loans, liquidations, seizures and sweeps happen in between. */
  lemma RedemptionPaysTheLockedAmount(
    s: State, owner: Id, amount: u64, held: u64, epoch: u64, ixs: seq<Instruction>, later: u64)
    requires Inv(s) && Pool.Accepts(s.pool, Pool.UnstakeRiseSol(owner, amount, held, epoch))
    requires forall i :: 0 <= i < |ixs| ==> !Redeems(ixs[i], s.pool.nonce)
    ensures var ticket, sol := s.pool.nonce, amount * s.pool.rate / Pool.RATE_SCALE;
      var t := Run(Step(s, PoolInstruction(Pool.UnstakeRiseSol(owner, amount, held, epoch))), ixs);
      var claim := PoolInstruction(Pool.ClaimUnstake(ticket, later));
      && (Accepts(t, claim) <==> epoch + Pool.UNSTAKE_EPOCH_DELAY <= later)
      && (Accepts(t, claim) ==> Step(t, claim).pool.vault == t.pool.vault - sol)
  {
    var u := Step(s, PoolInstruction(Pool.UnstakeRiseSol(owner, amount, held, epoch)));
    RequestLocks(s, owner, amount, held, epoch);
    TicketSurvives(u, ixs, s.pool.nonce);
    RunKeepsInv(u, ixs);
    TicketIsPaid(Run(u, ixs), s.pool.nonce, later);
  }

  // --- Calls into the treasury ---------------------------------------------------------------

  /** No extension raises what a lock can claim for revenue it has not settled yet. */
  predicate Tame(s: State, ix: Instruction) { ix.GovernanceInstruction? ==> Gov.Harmless(s.gov, ix.gov) }

  lemma PositionsKeepTreasury(s: State, ix: Instruction)
    requires OnPosition(ix) && AcceptsOnPosition(s, ix)
    ensures ApplyOnPosition(s, ix).gov == s.gov
  {
  }

  lemma DistributionKeepsSolvent(gov: Gov.State, verise: nat, toReserve: nat, epoch: nat)
    requires Gov.Counted(gov) && Gov.Solvent(gov)
    ensures var d := Gov.Distributed(gov, verise, toReserve);
      Gov.Solvent(d) && Gov.Solvent(d.(lastCollection := epoch))
  {
    Gov.DistributeKeepsSolvent(gov, verise, toReserve);
  }

  lemma CdpFeesKeepSolvent(s: State, rent: u64)
    requires Inv(s) && Gov.Solvent(s.gov) && CanCollectCdpFees(s, rent)
    ensures Gov.Solvent(CdpFeesCollected(s, rent).gov)
  {
    DistributionKeepsSolvent(s.gov, Sweepable(s, rent).verise, Sweepable(s, rent).reserve, 0);
  }

  lemma FeesKeepSolvent(s: State, epoch: u64)
    requires Inv(s) && Gov.Solvent(s.gov) && CanCollectFees(s, epoch)
    ensures Gov.Solvent(FeesCollected(s, epoch).gov)
  {
    var total: nat := Pool.Excess(s.pool);
    if 0 < total {
      var team, verise := Cut(total, s.gov.teamBps), Cut(total, s.gov.veriseBps);
      DistributionKeepsSolvent(s.gov, verise, total - team - verise, epoch);
    }
  }

  lemma BuybackKeepsSolvent(s: State, k: Id, prices: Prices, rent: u64)
    requires Gov.Solvent(s.gov) && CanClaim(s, k, prices, rent)
    ensures Gov.Solvent(Claimed(s, k, prices, rent).gov)
  {
  }

  lemma ProtocolKeepsRevenueSolvent(s: State, ix: Instruction)
    requires Inv(s) && Gov.Solvent(s.gov) && Tame(s, ix) && !OnPosition(ix) && AcceptsOnProtocol(s, ix)
    ensures Gov.Solvent(ApplyOnProtocol(s, ix).gov)
  {
    match ix
    case GovernanceInstruction(own) => Gov.StepKeepsSolvent(s.gov, own);
    case CollectCdpFees(rent) => CdpFeesKeepSolvent(s, rent);
    case CollectFees(epoch) => FeesKeepSolvent(s, epoch);
    case ClaimCollateral(k, prices, rent) => BuybackKeepsSolvent(s, k, prices, rent);
    case _ =>
  }

  /** Fees from borrowers, fees from the pool and buybacks from the reserve keep the veRISE revenue
      solvent: only a lock extension can endanger it. */
  lemma RevenueStaysSolvent(s: State, ix: Instruction)
    requires Inv(s) && Gov.Solvent(s.gov) && Tame(s, ix)
    ensures Gov.Solvent(Step(s, ix).gov)
  {
    if Accepts(s, ix) {
      if OnPosition(ix) { PositionsKeepTreasury(s, ix); } else { ProtocolKeepsRevenueSolvent(s, ix); }
    }
  }

  predicate TameRun(s: State, ixs: seq<Instruction>)
    decreases |ixs|
  {
    ixs == [] || (Tame(s, ixs[0]) && TameRun(Step(s, ixs[0]), ixs[1..]))
  }

  lemma {:induction false} RunKeepsRevenueSolvent(s: State, ixs: seq<Instruction>)
    requires Inv(s) && Gov.Solvent(s.gov) && TameRun(s, ixs)
    ensures Gov.Solvent(Run(s, ixs).gov)
    decreases |ixs|
  {
    if ixs == [] {
    } else {
      StepKeepsInv(s, ixs[0]);
      RevenueStaysSolvent(s, ixs[0]);
      RunKeepsRevenueSolvent(Step(s, ixs[0]), ixs[1..]);
    }
  }

  /** In every tame run of the three programs the treasury covers, without slack, what was claimed
      and what the locks may still claim, and its vault holds what each lock has due. */
  lemma RevenueSolvency(s0: State, ixs: seq<Instruction>)
    requires Initial(s0) && TameRun(s0, ixs)
    ensures var g := Run(s0, ixs).gov;
      && Gov.INDEX_SCALE * g.claimed + Sum(g.locks, Gov.Unclaimed(g.revenueIndex))
           <= Gov.INDEX_SCALE * g.totalDistributed
      && (forall k :: k in g.locks ==>
            g.locks[k].lastIndex <= g.revenueIndex && Gov.DueAt(g, k) / Gov.INDEX_SCALE <= g.veriseVault)
  {
    InitialInv(s0);
    RunKeepsInv(s0, ixs);
    RunKeepsRevenueSolvent(s0, ixs);
    var g := Run(s0, ixs).gov;
    forall k | k in g.locks
      ensures g.locks[k].lastIndex <= g.revenueIndex && Gov.DueAt(g, k) / Gov.INDEX_SCALE <= g.veriseVault
    {
      Locks.DueIsFunded(g, k);
    }
  }

  lemma StepKeepsReserve(s: State, ix: Instruction)
    requires Gov.ReserveKept(s.gov) && Accepts(s, ix)
    ensures Gov.ReserveKept(Apply(s, ix).gov)
  {
    if OnPosition(ix) {
      PositionsKeepTreasury(s, ix);
    } else if ix.GovernanceInstruction? {
      Gov.StepKeepsReserve(s.gov, ix.gov);
    }
  }

  /** The reserve's counter and its vault agree in every run: fees of both programs raise them
      together, and buybacks, for a claim or directly, lower them together. */
  lemma {:induction false} RunKeepsReserve(s: State, ixs: seq<Instruction>)
    requires Gov.ReserveKept(s.gov)
    ensures Gov.ReserveKept(Run(s, ixs).gov)
    decreases |ixs|
  {
    if ixs == [] {
    } else {
      if Accepts(s, ixs[0]) { StepKeepsReserve(s, ixs[0]); }
      RunKeepsReserve(Step(s, ixs[0]), ixs[1..]);
    }
  }
}
