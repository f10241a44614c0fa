/** Every instruction of the CDP engine keeps the invariants: counter by counter, call by call. */
module CdpSteps {
  import opened Arithmetic
  import opened MapSums
  import opened Accumulator
  import opened Interest
  import opened Settlement
  import opened Cdp
  import opened CdpInvariants
  import Pool = StakingPool
  import Gov = Governance

  // --- Instructions on one position ----------------------------------------------

  lemma OpenKeepsInv(s: State, k: Id, mint: Id, tokens: u64, amount: u64, held: u64, prices: Prices, slot: u64)
    requires Inv(s) && CanOpen(s, k, mint, tokens, amount, held, prices)
    ensures Inv(Opened(s, k, mint, tokens, amount, prices, slot))
  {
    var t := Opened(s, k, mint, tokens, amount, prices, slot);
    SettledKeepsBooked(s, t, k);
    WriteKeepsReserved(s, t, k);
    WriteKeepsShaped(s, t, k);
    Pool.StepKeepsInv(s.pool, Pool.MintForCdp(amount));
  }

  lemma BorrowKeepsInv(s: State, k: Id, amount: u64, prices: Prices, slot: u64)
    requires Inv(s) && CanBorrow(s, k, amount, prices, slot)
    ensures Inv(Borrowed(s, k, amount, prices, slot))
  {
    var t := Borrowed(s, k, amount, prices, slot);
    SettledKeepsBooked(s, t, k);
    WriteKeepsReserved(s, t, k);
    WriteKeepsShaped(s, t, k);
    Pool.StepKeepsInv(s.pool, Pool.MintForCdp(amount));
  }

  lemma AddKeepsInv(s: State, k: Id, amount: u64, held: u64, prices: Prices)
    requires Inv(s) && CanAdd(s, k, amount, held, prices)
    ensures Inv(Added(s, k, amount, prices))
  {
    var t := Added(s, k, amount, prices);
    TouchedKeepsBooked(s, t, k);
    WriteKeepsReserved(s, t, k);
    WriteKeepsShaped(s, t, k);
  }

  lemma WithdrawKeepsInv(s: State, k: Id, amount: u64, prices: Prices, slot: u64)
    requires Inv(s) && CanWithdrawAt(s, k, amount, prices, slot)
    ensures Inv(Withdrawn(s, k, amount, prices, slot))
  {
    var t := Withdrawn(s, k, amount, prices, slot);
    TouchedKeepsBooked(s, t, k);
    WriteKeepsReserved(s, t, k);
    WriteKeepsShaped(s, t, k);
  }

  lemma CrankKeepsInv(s: State, k: Id, slot: u64)
    requires Inv(s) && CanAccrueAt(s, k, slot)
    ensures Inv(CrankedAt(s, k, slot))
  {
    var t := CrankedAt(s, k, slot);
    TouchedKeepsBooked(s, t, k);
    WriteKeepsReserved(s, t, k);
    WriteKeepsShaped(s, t, k);
  }

  /** What a payment clears never exceeds what is owed, so both counters can bear it. */
  lemma ClearedKeepsInv(s: State, k: Id, r: Clearing)
    requires Inv(s) && Active(s, k) && CanRoute(s, r)
    requires r.loan.principal + r.waterfall.principalCleared == s.positions[k].loan.principal
    requires r.loan.interest < U64 && (0 < TotalOwed(r.loan) ==> r.divert == 0)
    requires CanSettle(s.positions[k], s.rewardPerToken, r.loan.principal)
    ensures Inv(ClearedBy(s, k, r))
  {
    var t := ClearedBy(s, k, r);
    PrincipalIsCounted(s, k);
    SettledKeepsBooked(s, t, k);
    WriteKeepsReserved(s, t, k);
    WriteKeepsShaped(s, t, k);
    Pool.StepKeepsInv(s.pool, Pool.TransferIn(ToPool(r)));
  }

  /** What flows into the fee vault is nobody's invariant but its width. */
  lemma FeeVaultKeepsInv(s: State, feeVault: u64)
    requires Inv(s)
    ensures Inv(s.(feeVault := feeVault))
  {
    assert BookOf(s.(feeVault := feeVault)) == BookOf(s);
  }

  lemma RepayKeepsInv(s: State, k: Id, lamports: u64, held: u64, prices: Prices, slot: u64)
    requires Inv(s) && CanRepay(s, k, lamports, held, prices, slot)
    ensures Inv(RepaidBy(s, k, lamports, held, prices, slot))
  {
    var r := ClearingOf(s, k, lamports, prices, slot);
    ClearedKeepsInv(s, k, r);
    FeeVaultKeepsInv(ClearedBy(s, k, r), s.feeVault + r.waterfall.interestSol);
  }

  lemma RepaySplKeepsInv(s: State, k: Id, sol: u64, rent: u64, prices: Prices, slot: u64)
    requires Inv(s) && CanRepaySpl(s, k, sol, rent, prices, slot)
    ensures Inv(RepaidSpl(s, k, sol, rent, prices, slot))
  {
    var r := ClearingOf(s, k, sol, prices, slot);
    WaterfallConserves(LoanAt(s, k, slot), sol, s.pool.rate);
    ClearedKeepsInv(s, k, r);
    FeeVaultKeepsInv(ClearedBy(s, k, r), s.feeVault + sol + rent - ToPool(r) - r.divert);
  }

  lemma BurnedKeepsInv(pool: Pool.State, amount: nat, interest: nat)
    requires Pool.Inv(pool) && CanBurn(pool, amount, interest)
    ensures Pool.Inv(Burned(pool, amount, interest))
  {
    Pool.BurnedKeepsBacked(pool, interest);
  }

  lemma BurnedDownKeepsInv(s: State, k: Id, after: Loan, interest: nat, principal: nat)
    requires Inv(s) && Active(s, k) && CanBurn(s.pool, interest + principal, interest)
    requires after.principal + principal == s.positions[k].loan.principal && after.interest < U64
    requires CanSettle(s.positions[k], s.rewardPerToken, after.principal)
    ensures Inv(BurnedDown(s, k, after, interest, principal))
  {
    var t := BurnedDown(s, k, after, interest, principal);
    PrincipalIsCounted(s, k);
    BurnedKeepsInv(s.pool, interest + principal, interest);
    SettledKeepsBooked(s, t, k);
    WriteKeepsReserved(s, t, k);
    WriteKeepsShaped(s, t, k);
    assert Supplied(t) && Calls(t) && Scheduled(t);
  }

  lemma RepayRiseSolKeepsInv(s: State, k: Id, amount: u64, held: u64, slot: u64)
    requires Inv(s) && CanRepayRiseSol(s, k, amount, held, slot)
    ensures Inv(RepaidRiseSol(s, k, amount, held, slot))
  {
    var l := LoanAt(s, k, slot);
    ClearedLeaves(l, amount);
    BurnedDownKeepsInv(s, k, Repaid(l, amount), Cleared(l, amount).0, Cleared(l, amount).1);
  }

  lemma CloseKeepsInv(s: State, k: Id, held: u64)
    requires Inv(s) && CanClose(s, k, held)
    ensures Inv(Closed(s, k, held))
  {
    var t := Closed(s, k, held);
    PrincipalIsCounted(s, k);
    SettledKeepsBooked(s, t, k);
    WriteKeepsReserved(s, t, k);
    WriteKeepsShaped(s, t, k);
    BurnedKeepsInv(s.pool, TotalOwed(s.positions[k].loan), s.positions[k].loan.interest);
  }

  lemma EmptiedKeepsInv(s: State, k: Id, toPool: u64, kept: u64)
    requires Inv(s) && Active(s, k) && CanSettle(s.positions[k], s.rewardPerToken, 0)
    requires s.positions[k].collateral <= CollateralFor(s, k).vault
    requires s.pool.vault + toPool < U64 && s.feeVault + kept < U64
    ensures Inv(EmptiedBy(s, k, toPool, kept))
  {
    var t := EmptiedBy(s, k, toPool, kept);
    PrincipalIsCounted(s, k);
    SettledKeepsBooked(s, t, k);
    WriteKeepsReserved(s, t, k);
    WriteKeepsShaped(s, t, k);
    Pool.StepKeepsInv(s.pool, Pool.TransferIn(toPool));
  }

  lemma LiquidateKeepsInv(s: State, k: Id, prices: Prices, sol: u64, rent: u64)
    requires Inv(s) && CanLiquidate(s, k, prices, sol, rent)
    ensures Inv(Liquidated(s, k, prices, sol, rent))
  {
    EmptiedKeepsInv(s, k, ProceedsAt(s, k, prices, sol).principal, KeptAt(s, k, prices, sol, rent));
  }

  // --- Instructions on the protocol ------------------------------------------------

  lemma ClaimKeepsBooked(s: State, k: Id, prices: Prices, rent: u64)
    requires Booked(s) && Shaped(s) && CanClaim(s, k, prices, rent)
    ensures Booked(Claimed(s, k, prices, rent))
  {
    var t := Claimed(s, k, prices, rent);
    SettlementIsFair(s, k);
    EvictKeepsSound(BookOf(s), k, 0);
    SharesDrop(s.positions, k);
    SumDrop(s.positions, PrincipalOf, k);
    assert BookOf(t) == Evict(BookOf(s), k, 0);
  }

  lemma ClaimKeepsAccounts(s: State, k: Id, prices: Prices, rent: u64)
    requires Reserved(s) && Shaped(s) && CanClaim(s, k, prices, rent)
    ensures Reserved(Claimed(s, k, prices, rent)) && Shaped(Claimed(s, k, prices, rent))
  {
    SumDrop(s.positions, BuybackOf, k);
  }

  lemma ClaimKeepsCalls(s: State, k: Id, prices: Prices, rent: u64)
    requires Calls(s) && CanClaim(s, k, prices, rent)
    ensures Calls(Claimed(s, k, prices, rent))
  {
    var p, c := s.positions[k], CollateralFor(s, k);
    if c.vault < p.collateral && p.buyback == 0 {
      var ix := Gov.SpendReserve(TreasuryCost(c, Shortfall(p.collateral, c.vault), prices), rent);
      Gov.StepKeepsCounted(s.gov, ix);
      Gov.StepKeepsSized(s.gov, ix);
    }
  }

  lemma ClaimKeepsInv(s: State, k: Id, prices: Prices, rent: u64)
    requires Inv(s) && CanClaim(s, k, prices, rent)
    ensures Inv(Claimed(s, k, prices, rent))
  {
    ClaimKeepsBooked(s, k, prices, rent);
    ClaimKeepsAccounts(s, k, prices, rent);
    ClaimKeepsCalls(s, k, prices, rent);
  }

  lemma SeizeKeepsInv(s: State, mint: Id, amount: u64, prices: Prices, sol: u64, rent: u64)
    requires Inv(s) && CanSeize(s, mint, amount, prices, sol, rent)
    ensures Inv(Seized(s, mint, amount, prices, sol, rent))
  {
    var t := Seized(s, mint, amount, prices, sol, rent);
    assert BookOf(t) == BookOf(s);
    Pool.StepKeepsInv(s.pool, Pool.TransferIn(sol + rent));
    Pool.StepKeepsInv(Pool.Apply(s.pool, Pool.TransferIn(sol + rent)), Pool.ReceiveCdpLiquidity(sol));
  }

  lemma CheckpointKeepsBooked(s: State, slot: nat)
    requires Booked(s) && CanCheckpoint(s, slot)
    ensures Booked(Checkpointed(s, slot))
  {
    var t := Checkpointed(s, slot);
    if s.lastCheckpoint < slot && 0 < s.totalDebt {
      WeightIsPrincipal(s.positions);
      EmitKeepsSound(BookOf(s), Emission(s, slot), s.totalDebt);
      assert BookOf(t) == Emit(BookOf(s), Emission(s, slot), s.totalDebt);
    } else {
      assert BookOf(t) == BookOf(s);
    }
  }

  /** Rounding each checkpoint's emission down keeps their sum below the schedule's line. */
  lemma ScheduleAdvances(emitted: nat, perEpoch: nat, slots: pos, start: nat, last: nat, elapsed: nat)
    requires OnSchedule(emitted, perEpoch, slots, start, last) && last + elapsed < U64
    ensures OnSchedule(emitted + EmittedOver(perEpoch, elapsed, slots), perEpoch, slots, start, last + elapsed)
    ensures OnSchedule(emitted, perEpoch, slots, start, last + elapsed)
  {
    var more := EmittedOver(perEpoch, elapsed, slots);
    FloorBounds(perEpoch * elapsed, slots);
    assert (emitted + more) * slots == emitted * slots + more * slots;
    assert perEpoch * (last + elapsed - start) == perEpoch * (last - start) + perEpoch * elapsed;
  }

  lemma CheckpointKeepsInv(s: State, slot: u64)
    requires Inv(s) && CanCheckpoint(s, slot)
    ensures Inv(Checkpointed(s, slot))
  {
    CheckpointKeepsBooked(s, slot);
    if s.lastCheckpoint < slot {
      ScheduleAdvances(s.emitted, s.epochEmissions, s.slotsPerEpoch, s.startSlot, s.lastCheckpoint,
                       slot - s.lastCheckpoint);
    }
  }

  lemma RewardsClaimKeepsBooked(s: State, k: Id)
    requires Booked(s) && CanClaimRewards(s, k)
    ensures Booked(RewardsClaimed(s, k))
    ensures k in BookOf(s).shares && 0 <= Earned(BookOf(s).shares[k], s.rewardPerToken)
    ensures BookOf(RewardsClaimed(s, k)) == Collect(BookOf(s), k)
  {
    var t := RewardsClaimed(s, k);
    CollectKeepsSound(BookOf(s), k);
    SharesPut(s.positions, k, t.positions[k]);
    SumPut(s.positions, PrincipalOf, k, t.positions[k]);
  }

  lemma RewardsClaimKeepsInv(s: State, k: Id)
    requires Inv(s) && CanClaimRewards(s, k)
    ensures Inv(RewardsClaimed(s, k))
  {
    var t := RewardsClaimed(s, k);
    RewardsClaimKeepsBooked(s, k);
    WriteKeepsReserved(s, t, k);
    WriteKeepsShaped(s, t, k);
  }

  lemma CreditKeepsInv(pool: Pool.State, share: nat)
    requires Pool.Inv(pool) && CanCredit(pool, share)
    ensures Pool.Inv(Credited(pool, share)) && pool.rate <= Credited(pool, share).rate
  {
    if 0 < share {
      Pool.StepKeepsInv(pool, Pool.TransferIn(share));
      Pool.StepKeepsInv(Pool.Apply(pool, Pool.TransferIn(share)), Pool.CreditStakingRevenue(share));
    }
  }

  lemma DistributeKeeps(gov: Gov.State, verise: u64, toReserve: u64, epoch: nat)
    requires Gov.Counted(gov) && Gov.Sized(gov) && Gov.CanDistribute(gov, verise, toReserve)
    ensures var d := Gov.Distributed(gov, verise, toReserve);
      && Gov.Counted(d) && Gov.Sized(d)
      && Gov.Counted(d.(lastCollection := epoch)) && Gov.Sized(d.(lastCollection := epoch))
  {
    Gov.StepKeepsCounted(gov, Gov.Distribute(verise, toReserve));
    Gov.StepKeepsSized(gov, Gov.Distribute(verise, toReserve));
  }

  lemma CdpFeesKeepInv(s: State, rent: u64)
    requires Inv(s) && CanCollectCdpFees(s, rent)
    ensures Inv(CdpFeesCollected(s, rent))
  {
    if rent < s.feeVault {
      var fees := Sweepable(s, rent);
      CreditKeepsInv(s.pool, fees.staking);
      DistributeKeeps(s.gov, fees.verise, fees.reserve, 0);
      assert BookOf(CdpFeesCollected(s, rent)) == BookOf(s);
    }
  }

  lemma CollectFeesKeepInv(s: State, epoch: u64)
    requires Inv(s) && CanCollectFees(s, epoch)
    ensures Inv(FeesCollected(s, epoch))
  {
    var total: nat := Pool.Excess(s.pool);
    if 0 < total {
      var team, verise := Cut(total, s.gov.teamBps), Cut(total, s.gov.veriseBps);
      DistributeKeeps(s.gov, verise, total - team - verise, epoch);
      Pool.StepKeepsInv(s.pool, Pool.CollectFees);
      assert BookOf(FeesCollected(s, epoch)) == BookOf(s);
    }
  }

  /** The other programs' own instructions leave the CDP engine's accounts alone; only their
      effect on the riseSOL supply matters to it. */
  lemma PoolCallKeepsInv(s: State, own: Pool.Instruction)
    requires Inv(s) && IsPublic(own) && Pool.Accepts(s.pool, own)
    ensures Inv(s.(pool := Pool.Apply(s.pool, own)))
  {
    var t := s.(pool := Pool.Apply(s.pool, own));
    assert BookOf(t) == BookOf(s);
    Pool.StepKeepsInv(s.pool, own);
    assert Supplied(t);
  }

  lemma GovernanceCallKeepsInv(s: State, own: Gov.Instruction)
    requires Inv(s) && Gov.Accepts(s.gov, own)
    ensures Inv(s.(gov := Gov.Apply(s.gov, own)))
  {
    assert BookOf(s.(gov := Gov.Apply(s.gov, own))) == BookOf(s);
    Gov.StepKeepsCounted(s.gov, own);
    Gov.StepKeepsSized(s.gov, own);
  }

  lemma ConfigKeepsInv(s: State, ix: Instruction)
    requires Inv(s) && !OnPosition(ix) && AcceptsOnProtocol(s, ix)
    requires ix.FundBorrowRewards? || ix.UpdateDebtCeiling? || ix.InitializeCollateral? || ix.UpdateCollateral?
    ensures Inv(ApplyOnProtocol(s, ix))
  {
    assert BookOf(ApplyOnProtocol(s, ix)) == BookOf(s);
    if ix.UpdateCollateral? { UpdateKeepsTerms(s.collaterals[ix.mint].terms, ix.update); }
  }

  // --- All of them -----------------------------------------------------------------

  lemma PositionStepKeepsInv(s: State, ix: Instruction)
    requires Inv(s) && OnPosition(ix) && AcceptsOnPosition(s, ix)
    ensures Inv(ApplyOnPosition(s, ix))
  {
    match ix
    case OpenPosition(k, mint, tokens, amount, held, prices, slot) =>
      OpenKeepsInv(s, k, mint, tokens, amount, held, prices, slot);
    case BorrowMore(k, amount, prices, slot) => BorrowKeepsInv(s, k, amount, prices, slot);
    case AddCollateral(k, amount, held, prices) => AddKeepsInv(s, k, amount, held, prices);
    case WithdrawExcess(k, amount, prices, slot) => WithdrawKeepsInv(s, k, amount, prices, slot);
    case AccrueInterest(k, slot) => CrankKeepsInv(s, k, slot);
    case RepayDebt(k, lamports, held, prices, slot) => RepayKeepsInv(s, k, lamports, held, prices, slot);
    case RepayDebtSpl(k, sol, rent, prices, slot) => RepaySplKeepsInv(s, k, sol, rent, prices, slot);
    case RepayDebtRiseSol(k, amount, held, slot) => RepayRiseSolKeepsInv(s, k, amount, held, slot);
    case ClosePosition(k, held) => CloseKeepsInv(s, k, held);
    case Liquidate(k, prices, sol, rent) => LiquidateKeepsInv(s, k, prices, sol, rent);
  }

  lemma ProtocolStepKeepsInv(s: State, ix: Instruction)
    requires Inv(s) && !OnPosition(ix) && AcceptsOnProtocol(s, ix)
    ensures Inv(ApplyOnProtocol(s, ix))
  {
    match ix
    case ClaimCollateral(k, prices, rent) => ClaimKeepsInv(s, k, prices, rent);
    case RedeemCollateral(mint, amount, prices, sol, rent) => SeizeKeepsInv(s, mint, amount, prices, sol, rent);
    case CheckpointBorrowRewards(slot) => CheckpointKeepsInv(s, slot);
    case ClaimBorrowRewards(k) => RewardsClaimKeepsInv(s, k);
    case CollectCdpFees(rent) => CdpFeesKeepInv(s, rent);
    case CollectFees(epoch) => CollectFeesKeepInv(s, epoch);
    case PoolInstruction(own) => PoolCallKeepsInv(s, own);
    case GovernanceInstruction(own) => GovernanceCallKeepsInv(s, own);
    case FundBorrowRewards(_) => ConfigKeepsInv(s, ix);
    case UpdateDebtCeiling(_) => ConfigKeepsInv(s, ix);
    case InitializeCollateral(_, _, _) => ConfigKeepsInv(s, ix);
    case UpdateCollateral(_, _) => ConfigKeepsInv(s, ix);
  }

  lemma StepKeepsInv(s: State, ix: Instruction)
    requires Inv(s)
    ensures Inv(Step(s, ix))
  {
    if Accepts(s, ix) {
      if OnPosition(ix) {
        PositionStepKeepsInv(s, ix);
      } else {
        ProtocolStepKeepsInv(s, ix);
      }
    }
  }

  /** Every reachable state, over every interleaving of the three programs. */
  lemma {:induction false} RunKeepsInv(s: State, ixs: seq<Instruction>)
    requires Inv(s)
    ensures Inv(Run(s, ixs))
    decreases |ixs|
  {
    if ixs == [] {
    } else {
      StepKeepsInv(s, ixs[0]);
      RunKeepsInv(Step(s, ixs[0]), ixs[1..]);
    }
  }
}
