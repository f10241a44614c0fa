/** Borrow rewards over whole runs of the CDP engine: what rounding can cost, and what it costs exactly. */
module CdpRewards {
  import opened Arithmetic
  import opened MapSums
  import opened Accumulator
  import opened Cdp
  import opened CdpInvariants
  import opened CdpSteps

  ghost const PendingRewards: Position -> int := (p: Position) => p.rewards.pending

  /** Accrued since the last synchronisation, scaled by REWARD_SCALE. */
  ghost function AccruedRewards(rate: nat): Position -> int {
    (p: Position) => p.loan.principal * rate - REWARD_SCALE * p.rewards.debt
  }

  /** A step that changes the principal of its position: the only one that may cost a rounding unit. */
  predicate Reweighs(s: State, ix: Instruction) {
    OnPosition(ix) && PrincipalAt(Step(s, ix), ix.position) != PrincipalAt(s, ix.position)
  }

  function Reweighings(s: State, ixs: seq<Instruction>): nat
    decreases |ixs|
  {
    if ixs == [] then 0 else (if Reweighs(s, ixs[0]) then 1 else 0) + Reweighings(Step(s, ixs[0]), ixs[1..])
  }

  lemma PositionStepChanges(s: State, ix: Instruction)
    requires OnPosition(ix) && AcceptsOnPosition(s, ix)
    ensures var t := ApplyOnPosition(s, ix);
      t.changes == s.changes + if PrincipalAt(t, ix.position) != PrincipalAt(s, ix.position) then 1 else 0
  {
  }

  lemma ProtocolStepChanges(s: State, ix: Instruction)
    requires !OnPosition(ix) && AcceptsOnProtocol(s, ix)
    ensures ApplyOnProtocol(s, ix).changes == s.changes
  {
  }

  lemma StepChanges(s: State, ix: Instruction)
    ensures Step(s, ix).changes == s.changes + if Reweighs(s, ix) then 1 else 0
  {
    if Accepts(s, ix) {
      if OnPosition(ix) { PositionStepChanges(s, ix); } else { ProtocolStepChanges(s, ix); }
    }
  }

  lemma {:induction false} ChangesAreReweighings(s: State, ixs: seq<Instruction>)
    ensures Run(s, ixs).changes == s.changes + Reweighings(s, ixs)
    decreases |ixs|
  {
    if ixs == [] {
    } else {
      StepChanges(s, ixs[0]);
      ChangesAreReweighings(Step(s, ixs[0]), ixs[1..]);
    }
  }

  lemma {:induction false} OwedSplits(positions: map<Id, Position>, rate: nat)
    ensures Sum(SharesIn(positions), Owed(rate))
      == REWARD_SCALE * Sum(positions, PendingRewards) + Sum(positions, AccruedRewards(rate))
    decreases positions
  {
    if positions == map[] {
    } else {
      var k :| k in positions;
      SumSplit(positions, PendingRewards, k);
      SumSplit(positions, AccruedRewards(rate), k);
      SumSplit(SharesIn(positions), Owed(rate), k);
      SharesDrop(positions, k);
      OwedSplits(positions - {k}, rate);
    }
  }

  /** Borrow-reward solvency over whole runs: everything paid, pending and accrued is covered by what
      was emitted, up to less than one base unit for each step that changed a principal; and the
      emissions keep below the schedule however the checkpoints are spaced. */
  lemma BorrowRewardSolvency(s0: State, ixs: seq<Instruction>)
    requires Initial(s0)
    ensures var s := Run(s0, ixs);
      && REWARD_SCALE * (s.paid + Sum(s.positions, PendingRewards)) + Sum(s.positions, AccruedRewards(s.rewardPerToken))
           <= REWARD_SCALE * s.emitted + (REWARD_SCALE - 1) * Reweighings(s0, ixs)
      && s.changes == Reweighings(s0, ixs)
      && (forall k :: k in s.positions ==> 0 <= AccruedRewards(s.rewardPerToken)(s.positions[k]))
      && s.emitted * s.slotsPerEpoch <= s.epochEmissions * (s.lastCheckpoint - s.startSlot)
  {
    var s := Run(s0, ixs);
    InitialInv(s0);
    RunKeepsInv(s0, ixs);
    ChangesAreReweighings(s0, ixs);
    OwedSplits(s.positions, s.rewardPerToken);
    forall k | k in s.positions ensures 0 <= AccruedRewards(s.rewardPerToken)(s.positions[k]) {
      assert FairShare(BookOf(s).shares[k], s.rewardPerToken, s.emitted);
    }
  }

  /** `settle` never aborts on its subtraction: only the integer widths can stop it. */
  lemma SettlementOnlyOverflows(s: State, k: Id, principal: nat)
    requires Inv(s) && k in s.positions
    ensures var p := s.positions[k];
      && 0 <= Earned(ShareIn(p), s.rewardPerToken) <= s.emitted
      && (CanSettle(p, s.rewardPerToken, principal) <==>
            p.loan.principal * s.rewardPerToken < U128 && principal * s.rewardPerToken < U128
            && p.rewards.pending + Earned(ShareIn(p), s.rewardPerToken) < U64)
  {
    SettlementIsFair(s, k);
  }

  /** A claim pays exactly what was pending and leaves the liability of the book unchanged. */
  lemma RewardsClaimIsConservative(s: State, k: Id)
    requires Inv(s) && CanClaimRewards(s, k)
    ensures var t := RewardsClaimed(s, k);
      && Liability(BookOf(t)) == Liability(BookOf(s))
      && t.paid - s.paid == s.rewardsVault - t.rewardsVault
           == s.positions[k].rewards.pending + Earned(ShareIn(s.positions[k]), s.rewardPerToken)
      && t.positions[k].rewards.claimed - s.positions[k].rewards.claimed == t.paid - s.paid
  {
    RewardsClaimKeepsBooked(s, k);
    CollectIsExact(BookOf(s), k);
  }

  // --- Solvency without slack -------------------------------------------------------------

  /** A position was written with its rewards settled for its principal, or left as they were. */
  ghost predicate Resettles(s: State, t: State, k: Id) {
    && Writes(s, t, k) && SameRewards(s, t)
    && 0 <= Earned(ShareAt(s, k), s.rewardPerToken)
    && (|| ShareIn(t.positions[k]) == Settled(ShareAt(s, k), s.rewardPerToken, PrincipalAt(t, k))
        || (k in s.positions && ShareIn(t.positions[k]) == ShareIn(s.positions[k])))
  }

  lemma ResettlingDrifts(s: State, t: State, k: Id)
    requires Resettles(s, t, k)
    ensures Liability(BookOf(t)) == Liability(BookOf(s)) + Drift(BookOf(s), k, PrincipalAt(t, k))
  {
    var b, p := BookOf(s), t.positions[k];
    SharesPut(s.positions, k, p);
    assert ShareOf(b.shares, k) == ShareAt(s, k);
    if ShareIn(p) == Settled(ShareAt(s, k), s.rewardPerToken, PrincipalAt(t, k)) {
      ReweighChangesLiability(b, k, p.loan.principal);
      assert BookOf(t).shares == Reweigh(b, k, p.loan.principal).shares;
    } else {
      assert SharesIn(t.positions) == SharesIn(s.positions);
    }
  }

  lemma LendingResettles(s: State, ix: Instruction)
    requires Booked(s) && (ix.OpenPosition? || ix.BorrowMore?) && AcceptsOnPosition(s, ix)
    ensures Resettles(s, ApplyOnPosition(s, ix), ix.position)
  {
    SettlementIsFair(s, ix.position);
  }

  lemma TouchingResettles(s: State, ix: Instruction)
    requires Booked(s) && OnPosition(ix) && AcceptsOnPosition(s, ix)
    requires ix.AddCollateral? || ix.WithdrawExcess? || ix.AccrueInterest?
    ensures Resettles(s, ApplyOnPosition(s, ix), ix.position)
  {
    SettlementIsFair(s, ix.position);
  }

  lemma RepayingResettles(s: State, ix: Instruction)
    requires Booked(s) && (ix.RepayDebt? || ix.RepayDebtSpl? || ix.RepayDebtRiseSol?) && AcceptsOnPosition(s, ix)
    ensures Resettles(s, ApplyOnPosition(s, ix), ix.position)
  {
    SettlementIsFair(s, ix.position);
  }

  lemma EndingResettles(s: State, ix: Instruction)
    requires Booked(s) && (ix.ClosePosition? || ix.Liquidate?) && AcceptsOnPosition(s, ix)
    ensures Resettles(s, ApplyOnPosition(s, ix), ix.position)
  {
    SettlementIsFair(s, ix.position);
  }

  lemma PositionStepResettles(s: State, ix: Instruction)
    requires Booked(s) && OnPosition(ix) && AcceptsOnPosition(s, ix)
    ensures Resettles(s, ApplyOnPosition(s, ix), ix.position)
  {
    if ix.OpenPosition? || ix.BorrowMore? {
      LendingResettles(s, ix);
    } else if ix.AddCollateral? || ix.WithdrawExcess? || ix.AccrueInterest? {
      TouchingResettles(s, ix);
    } else if ix.ClosePosition? || ix.Liquidate? {
      EndingResettles(s, ix);
    } else {
      RepayingResettles(s, ix);
    }
  }

  /** What a step costs through rounding. */
  ghost function StepDrift(s: State, ix: Instruction): int {
    if Reweighs(s, ix) then Drift(BookOf(s), ix.position, PrincipalAt(Step(s, ix), ix.position)) else 0
  }

  ghost function RunDrift(s: State, ixs: seq<Instruction>): int
    decreases |ixs|
  {
    if ixs == [] then 0 else StepDrift(s, ixs[0]) + RunDrift(Step(s, ixs[0]), ixs[1..])
  }

  /** An instruction on a position changes what the borrowers are owed by exactly its drift, so it keeps
      it from growing if and only if the new principal's entitlement is rounded down by no more than the
      old one's. */
  lemma PositionKeepsLiabilityIff(s: State, ix: Instruction)
    requires Inv(s) && OnPosition(ix) && AcceptsOnPosition(s, ix)
    ensures var t := ApplyOnPosition(s, ix);
      && Liability(BookOf(t)) == Liability(BookOf(s)) + Drift(BookOf(s), ix.position, PrincipalAt(t, ix.position))
      && (Liability(BookOf(t)) <= Liability(BookOf(s)) <==>
            Withheld(PrincipalAt(t, ix.position), s.rewardPerToken)
              <= Withheld(PrincipalAt(s, ix.position), s.rewardPerToken))
  {
    PositionStepResettles(s, ix);
    ResettlingDrifts(s, ApplyOnPosition(s, ix), ix.position);
    assert ShareOf(BookOf(s).shares, ix.position).weight == PrincipalAt(s, ix.position);
  }

  lemma CheckpointCosts(s: State, slot: nat)
    requires Booked(s) && CanCheckpoint(s, slot)
    ensures var t := Checkpointed(s, slot);
      Liability(BookOf(t)) - REWARD_SCALE * t.emitted <= Liability(BookOf(s)) - REWARD_SCALE * s.emitted
  {
    if s.lastCheckpoint < slot && 0 < s.totalDebt {
      WeightIsPrincipal(s.positions);
      EmitCosts(BookOf(s), Emission(s, slot), s.totalDebt);
      assert BookOf(Checkpointed(s, slot)) == Emit(BookOf(s), Emission(s, slot), s.totalDebt);
    } else {
      assert BookOf(Checkpointed(s, slot)) == BookOf(s);
    }
  }

  lemma ClaimCosts(s: State, k: Id, prices: Prices, rent: u64)
    requires Inv(s) && CanClaim(s, k, prices, rent)
    ensures Liability(BookOf(Claimed(s, k, prices, rent))) <= Liability(BookOf(s))
  {
    SettlementIsFair(s, k);
    EvictLowersLiability(BookOf(s), k, 0);
    SharesDrop(s.positions, k);
    assert BookOf(Claimed(s, k, prices, rent)) == Evict(BookOf(s), k, 0);
  }

  lemma ProtocolStepCosts(s: State, ix: Instruction)
    requires Inv(s) && !OnPosition(ix) && AcceptsOnProtocol(s, ix)
    ensures var t := ApplyOnProtocol(s, ix);
      Liability(BookOf(t)) - REWARD_SCALE * t.emitted <= Liability(BookOf(s)) - REWARD_SCALE * s.emitted
  {
    if ix.CheckpointBorrowRewards? {
      CheckpointCosts(s, ix.slot);
    } else if ix.ClaimCollateral? {
      ClaimCosts(s, ix.position, ix.prices, ix.rent);
    } else if ix.ClaimBorrowRewards? {
      RewardsClaimIsConservative(s, ix.position);
    } else {
      assert BookOf(ApplyOnProtocol(s, ix)) == BookOf(s);
    }
  }

  lemma PositionStepCosts(s: State, ix: Instruction)
    requires Inv(s) && OnPosition(ix) && AcceptsOnPosition(s, ix)
    ensures var t := ApplyOnPosition(s, ix);
      && t.emitted == s.emitted
      && Liability(BookOf(t)) - Liability(BookOf(s))
           == if PrincipalAt(t, ix.position) == PrincipalAt(s, ix.position) then 0
              else Drift(BookOf(s), ix.position, PrincipalAt(t, ix.position))
  {
    PositionStepResettles(s, ix);
    ResettlingDrifts(s, ApplyOnPosition(s, ix), ix.position);
    assert ShareOf(BookOf(s).shares, ix.position).weight == PrincipalAt(s, ix.position);
  }

  /** Beyond what it emits, a step costs at most its drift. */
  lemma StepCosts(s: State, ix: Instruction)
    requires Inv(s)
    ensures var t := Step(s, ix);
      Liability(BookOf(t)) - REWARD_SCALE * t.emitted
        <= Liability(BookOf(s)) - REWARD_SCALE * s.emitted + StepDrift(s, ix)
  {
    if Accepts(s, ix) {
      if OnPosition(ix) {
        PositionStepCosts(s, ix);
      } else {
        ProtocolStepCosts(s, ix);
      }
    }
  }

  lemma {:induction false} RunCosts(s: State, ixs: seq<Instruction>)
    requires Inv(s)
    ensures var t := Run(s, ixs);
      Liability(BookOf(t)) - REWARD_SCALE * t.emitted
        <= Liability(BookOf(s)) - REWARD_SCALE * s.emitted + RunDrift(s, ixs)
    decreases |ixs|
  {
    if ixs == [] {
    } else {
      StepKeepsInv(s, ixs[0]);
      StepCosts(s, ixs[0]);
      RunCosts(Step(s, ixs[0]), ixs[1..]);
    }
  }

  /** The exact form of borrow-reward solvency, over every run: what rounding costs is the sum of the
      remainder differences of its changes of principal, whatever their sign. */
  lemma BorrowRewardSolvencyWithDrift(s0: State, ixs: seq<Instruction>)
    requires Initial(s0)
    ensures var s := Run(s0, ixs);
      REWARD_SCALE * (s.paid + Sum(s.positions, PendingRewards)) + Sum(s.positions, AccruedRewards(s.rewardPerToken))
        <= REWARD_SCALE * s.emitted + RunDrift(s0, ixs)
  {
    InitialInv(s0);
    RunCosts(s0, ixs);
    OwedSplits(Run(s0, ixs).positions, Run(s0, ixs).rewardPerToken);
  }

  /** Every step that changes a principal has its new entitlement rounded down by no more than the old. */
  predicate Unfavoured(s: State, ixs: seq<Instruction>)
    decreases |ixs|
  {
    ixs == [] ||
      (&& (Reweighs(s, ixs[0]) ==>
             Withheld(PrincipalAt(Step(s, ixs[0]), ixs[0].position), s.rewardPerToken)
               <= Withheld(PrincipalAt(s, ixs[0].position), s.rewardPerToken))
       && Unfavoured(Step(s, ixs[0]), ixs[1..]))
  }

  lemma {:induction false} UnfavouredRunsDoNotDrift(s: State, ixs: seq<Instruction>)
    requires Unfavoured(s, ixs)
    ensures RunDrift(s, ixs) <= 0
    decreases |ixs|
  {
    if ixs == [] {
    } else {
      if Reweighs(s, ixs[0]) {
        assert ShareOf(BookOf(s).shares, ixs[0].position).weight == PrincipalAt(s, ixs[0].position);
      }
      UnfavouredRunsDoNotDrift(Step(s, ixs[0]), ixs[1..]);
    }
  }

  /** In such runs solvency needs no slack at all. */
  lemma BorrowRewardSolvencyWithoutSlack(s0: State, ixs: seq<Instruction>)
    requires Initial(s0) && Unfavoured(s0, ixs)
    ensures var s := Run(s0, ixs);
      && REWARD_SCALE * (s.paid + Sum(s.positions, PendingRewards)) + Sum(s.positions, AccruedRewards(s.rewardPerToken))
           <= REWARD_SCALE * s.emitted
      && s.paid + Sum(s.positions, PendingRewards) <= s.emitted
  {
    var s := Run(s0, ixs);
    BorrowRewardSolvencyWithDrift(s0, ixs);
    UnfavouredRunsDoNotDrift(s0, ixs);
    BorrowRewardSolvency(s0, ixs);
    SumNonNegative(s.positions, AccruedRewards(s.rewardPerToken));
  }
}
