/** The handlers of rise-rewards, statement by statement, on the accounts of one gauge.

    A handler works on deserialised copies of the accounts it was given, its out-parameters here;
    the instruction that runs it writes them back when it ends well, so a failed instruction
    leaves every field as it was. */
module GaugeProgram {
  import opened Arithmetic
  import opened MapSums
  import opened Accumulator
  import opened Gauges

  class Program {
    // RewardsConfig
    var epochEmissions: nat
    var currentEpoch: nat
    var epochStartSlot: nat
    var slotsPerEpoch: nat
    // Gauge
    var weightBps: nat
    var active: bool
    var rewardPerToken: nat
    var totalLp: nat
    var lastCheckpointEpoch: nat
    var totalDistributed: nat
    var pendingEmissions: nat
    // UserStake accounts and token vaults
    var stakes: map<Id, Share>
    var rewardsVault: nat
    var lpVault: nat
    // history
    ghost var paid: nat
    ghost var changes: nat
    ghost var allocations: map<Id, nat>
    ghost var initSlot: nat
    ghost var createdEpoch: nat
    ghost var peakEmissions: nat
    ghost var latestSlot: nat

    ghost function Accounts(): State reads this {
      State(epochEmissions, currentEpoch, epochStartSlot, slotsPerEpoch,
            weightBps, active, rewardPerToken, totalLp, lastCheckpointEpoch, totalDistributed, pendingEmissions,
            stakes, rewardsVault, lpVault,
            paid, changes, allocations, initSlot, createdEpoch, peakEmissions, latestSlot)
    }

    ghost predicate Valid() reads this { Inv(Accounts()) }

    /** `initialize_rewards` followed by `create_gauge`. */
    constructor (emissions: u64, slot: u64, vault: u64)
      requires 0 < emissions
      ensures Created(Accounts()) && Valid()
      ensures slotsPerEpoch == SLOTS_PER_EPOCH && epochEmissions == emissions
    {
      epochEmissions, currentEpoch, epochStartSlot, slotsPerEpoch := emissions, 0, slot, SLOTS_PER_EPOCH;
      weightBps, active, rewardPerToken, totalLp := 0, true, 0, 0;
      lastCheckpointEpoch, totalDistributed, pendingEmissions := 0, 0, 0;
      stakes, rewardsVault, lpVault := map[], vault, 0;
      paid, changes, allocations := 0, 0, map[];
      initSlot, createdEpoch, peakEmissions, latestSlot := slot, 0, emissions, slot;
      new;
      CreatedInv(Accounts());
    }

    /** What a settlement relies on; every staker of a valid gauge has it. */
    ghost predicate Sane(stake: Share) reads this {
      && 0 <= Earned(stake, rewardPerToken) < U64 && stake.pending < U64
      && (stake.weight == 0 ==> stake.debt == 0)
    }

    /** The settlement of `deposit_lp` and `withdraw_lp`: checked subtraction. */
    method Settle(stake: Share) returns (r: Outcome, pending: nat)
      requires Sane(stake)
      ensures r.Done? <==> stake.weight * rewardPerToken < U128
                           && stake.pending + Earned(stake, rewardPerToken) < U64
      ensures r.Done? ==> pending == stake.pending + Earned(stake, rewardPerToken)
    {
      pending := 0;
      var product :- Mul128(stake.weight, rewardPerToken);
      var difference :- CheckedSub(product / REWARD_SCALE, stake.debt);
      var earned :- Narrow64(difference);
      pending :- Add64(stake.pending, earned);
      r := Done;
    }

    /** The settlement of `claim_rewards` and `force_withdraw_lp`: saturating, then cast to 64 bits. */
    method Claimable(stake: Share) returns (r: Outcome, total: nat)
      requires Sane(stake)
      ensures r.Done? <==> stake.weight * rewardPerToken < U128
                           && stake.pending + Earned(stake, rewardPerToken) < U64
      ensures r.Done? ==> total == stake.pending + Earned(stake, rewardPerToken)
    {
      total := 0;
      var product :- Mul128(stake.weight, rewardPerToken);
      var newlyAccrued := Truncate64(SaturatingSub(product / REWARD_SCALE, stake.debt));
      total :- Add64(stake.pending, newlyAccrued);
      r := Done;
    }

    /** `reward_debt` for an LP amount at the current rate. */
    method DebtFor(lp: nat) returns (r: Outcome, debt: nat)
      ensures r.Done? <==> lp * rewardPerToken < U128
      ensures r.Done? ==> debt == Entitled(lp, rewardPerToken)
    {
      debt := 0;
      var product :- Mul128(lp, rewardPerToken);
      debt := product / REWARD_SCALE;
      r := Done;
    }

    method DepositHandler(user: Id, amount: u64, held: u64) returns (r: Outcome, stake: Share, total: nat)
      requires Sane(ShareOf(stakes, user))
      ensures r.Done? <==> CanDeposit(Accounts(), user, amount, held)
      ensures r.Done? ==> total == totalLp + amount
                          && stake == Settled(ShareOf(stakes, user), rewardPerToken, ShareOf(stakes, user).weight + amount)
      ensures amount < MIN_DEPOSIT ==> r == Failed(ZeroAmount)
    {
      stake, total := if user in stakes then stakes[user] else NO_SHARE, totalLp;
      :- Require(amount >= 1_000, ZeroAmount);
      :- Require(active, GaugeNotActive);
      var pending := stake.pending;
      if stake.weight > 0 {
        r, pending := Settle(stake);
        if r.Failed? { return; }
      }
      :- Require(amount <= held, TransferFailed);
      var lp :- Add64(stake.weight, amount);
      var debt;
      r, debt := DebtFor(lp);
      if r.Failed? { return; }
      stake := Share(lp, debt, pending);
      total :- Add64(totalLp, amount);
    }

    method DepositLp(user: Id, amount: u64, held: u64) returns (r: Outcome)
      requires Sane(ShareOf(stakes, user))
      modifies this
      ensures r.Done? <==> old(CanDeposit(Accounts(), user, amount, held))
      ensures Accounts() == old(if r.Done? then Deposited(Accounts(), user, amount) else Accounts())
    {
      var stake, total;
      r, stake, total := DepositHandler(user, amount, held);
      if r.Done? {
        stakes, totalLp, lpVault := stakes[user := stake], total, lpVault + amount;
        changes := changes + 1;
      }
    }

    method WithdrawHandler(user: Id, amount: u64) returns (r: Outcome, stake: Share, total: nat)
      requires Sane(ShareOf(stakes, user))
      ensures r.Done? <==> CanWithdraw(Accounts(), user, amount)
      ensures r.Done? ==> total == totalLp - amount
                          && stake == Settled(stakes[user], rewardPerToken, stakes[user].weight - amount)
      ensures amount == 0 ==> r == Failed(ZeroAmount)
      ensures 0 < amount && user in stakes && stakes[user].weight < amount ==> r == Failed(InsufficientBalance)
    {
      stake, total := NO_SHARE, totalLp;
      :- Require(amount > 0, ZeroAmount);
      :- Require(user in stakes, AccountMissing);
      stake := stakes[user];
      :- Require(stake.weight >= amount, InsufficientBalance);
      var pending;
      r, pending := Settle(stake);
      if r.Failed? { return; }
      :- Require(amount <= lpVault, TransferFailed);
      var lp :- CheckedSub(stake.weight, amount);
      :- Require(lp == 0 || lp >= 1_000, ZeroAmount);
      MulMonotone(lp, stake.weight, rewardPerToken);
      var debt;
      r, debt := DebtFor(lp);
      stake := Share(lp, debt, pending);
      total :- CheckedSub(totalLp, amount);
    }

    method WithdrawLp(user: Id, amount: u64) returns (r: Outcome)
      requires Sane(ShareOf(stakes, user))
      modifies this
      ensures r.Done? <==> old(CanWithdraw(Accounts(), user, amount))
      ensures Accounts() == old(if r.Done? then Withdrawn(Accounts(), user, amount) else Accounts())
    {
      var stake, total;
      r, stake, total := WithdrawHandler(user, amount);
      if r.Done? {
        stakes, totalLp, lpVault := stakes[user := stake], total, lpVault - amount;
        changes := changes + 1;
      }
    }

    method ClaimHandler(user: Id) returns (r: Outcome, stake: Share, payout: nat)
      requires Sane(ShareOf(stakes, user))
      ensures r.Done? <==> CanClaim(Accounts(), user)
      ensures r.Done? ==> payout == Pending(Accounts(), user)
                          && stake == Share(stakes[user].weight, Entitled(stakes[user].weight, rewardPerToken), 0)
    {
      stake, payout := NO_SHARE, 0;
      :- Require(user in stakes, AccountMissing);
      stake := stakes[user];
      r, payout := Claimable(stake);
      if r.Failed? { return; }
      :- Require(payout > 0, NoRewardsToClaim);
      :- Require(payout <= rewardsVault, TransferFailed);
      var debt;
      r, debt := DebtFor(stake.weight);
      stake := stake.(pending := 0, debt := debt);
    }

    method ClaimRewards(user: Id) returns (r: Outcome)
      requires Sane(ShareOf(stakes, user))
      modifies this
      ensures r.Done? <==> old(CanClaim(Accounts(), user))
      ensures Accounts() == old(if r.Done? then Claimed(Accounts(), user) else Accounts())
    {
      var stake, payout;
      r, stake, payout := ClaimHandler(user);
      if r.Done? {
        stakes, rewardsVault := stakes[user := stake], rewardsVault - payout;
        paid := paid + payout;
      }
    }

    method ForceWithdrawHandler(user: Id) returns (r: Outcome, payout: nat, total: nat)
      requires Sane(ShareOf(stakes, user))
      ensures r.Done? <==> CanForceWithdraw(Accounts(), user)
      ensures r.Done? ==> payout == Min(Pending(Accounts(), user), rewardsVault)
                          && total == totalLp - stakes[user].weight
    {
      payout, total := 0, totalLp;
      :- Require(user in stakes, AccountMissing);
      var stake := stakes[user];
      :- Require(stake.weight > 0, ZeroAmount);
      var claimable;
      r, claimable := Claimable(stake);
      if r.Failed? { return; }
      :- Require(stake.weight <= lpVault, TransferFailed);
      payout := Min(claimable, rewardsVault);
      total :- CheckedSub(totalLp, stake.weight);
    }

    method ForceWithdrawLp(user: Id) returns (r: Outcome)
      requires Sane(ShareOf(stakes, user))
      modifies this
      ensures r.Done? <==> old(CanForceWithdraw(Accounts(), user))
      ensures Accounts() == old(if r.Done? then ForceWithdrawn(Accounts(), user) else Accounts())
    {
      var payout, total;
      r, payout, total := ForceWithdrawHandler(user);
      if r.Done? {
        lpVault, totalLp, stakes := lpVault - stakes[user].weight, total, stakes - {user};
        rewardsVault, paid := rewardsVault - payout, paid + payout;
      }
    }

    /** The epoch part of `checkpoint_gauge`, the same for every gauge. */
    method EpochHandler(slot: u64) returns (r: Outcome, epoch: nat, start: nat)
      requires currentEpoch < U64 && 0 < slotsPerEpoch
      ensures r.Done? <==> Advanced(Accounts(), slot).currentEpoch < U64
      ensures r.Done? ==> epoch == Advanced(Accounts(), slot).currentEpoch
                          && start == Advanced(Accounts(), slot).epochStartSlot
    {
      r, epoch, start := Done, currentEpoch, epochStartSlot;
      if SaturatingSub(slot, epochStartSlot) >= slotsPerEpoch {
        epoch :- Add64(currentEpoch, 1);
        start := Min(epochStartSlot + slotsPerEpoch, U64 - 1);
      }
    }

    /** The gauge's part of `checkpoint_gauge`, for an epoch not allocated yet. */
    method AllocationHandler() returns (r: Outcome, total: nat, rate: nat, distributed: nat)
      requires weightBps <= BPS && epochEmissions < U64 && totalDistributed < U64 && rewardPerToken < U128
      ensures r.Done? <==> CanAllocate(Accounts())
      ensures r.Done? ==> total == Allocation(Accounts()) + pendingEmissions
      ensures r.Done? ==> IsFloor(total - pendingEmissions, epochEmissions * weightBps, 10_000)
      ensures r.Done? && 0 < totalLp ==>
        rate == rewardPerToken + total * REWARD_SCALE / totalLp && distributed == totalDistributed + total
    {
      total, rate, distributed := 0, rewardPerToken, totalDistributed;
      ShareAtMost(epochEmissions, weightBps, BPS);
      FloorIs(epochEmissions * weightBps, BPS);
      var allocation := 0;
      if weightBps != 0 {
        MulMonotone(weightBps, BPS, epochEmissions);
        var product :- Mul128(epochEmissions, weightBps);
        allocation := Truncate64(product / 10_000);
      }
      total :- Add64(allocation, pendingEmissions);
      if 0 < totalLp && 0 < total {
        var scaled :- Mul128(total, REWARD_SCALE);
        var increase :- CheckedDiv(scaled, totalLp);
        rate :- Add128(rewardPerToken, increase);
        distributed :- Add64(totalDistributed, total);
      }
      r := Done;
    }

    method WriteEpoch(slot: u64, epoch: nat, start: nat)
      requires epoch == Advanced(Accounts(), slot).currentEpoch && start == Advanced(Accounts(), slot).epochStartSlot
      modifies this
      ensures Accounts() == old(Advanced(Accounts(), slot))
    {
      currentEpoch, epochStartSlot := epoch, start;
      latestSlot := Max(latestSlot, slot);
    }

    method WriteAllocation(total: nat, rate: nat, distributed: nat)
      requires total == Allocation(Accounts()) + pendingEmissions
      requires 0 < totalLp ==>
        rate == rewardPerToken + total * REWARD_SCALE / totalLp && distributed == totalDistributed + total
      modifies this
      ensures Accounts() == old(Allocated(Accounts()))
    {
      allocations := allocations[currentEpoch := Allocation(Accounts())];
      lastCheckpointEpoch := currentEpoch;
      if totalLp == 0 {
        pendingEmissions := total;
      } else {
        rewardPerToken, totalDistributed, pendingEmissions := rate, distributed, 0;
      }
    }

    method CheckpointGauge(slot: u64) returns (r: Outcome)
      requires currentEpoch < U64 && 0 < slotsPerEpoch
      requires weightBps <= BPS && epochEmissions < U64 && totalDistributed < U64 && rewardPerToken < U128
      modifies this
      ensures r.Done? <==> old(CanCheckpoint(Accounts(), slot))
      ensures Accounts() == old(if r.Done? then Checkpointed(Accounts(), slot) else Accounts())
      ensures r.Done? && old(lastCheckpointEpoch) < currentEpoch ==>
        currentEpoch in allocations && IsFloor(allocations[currentEpoch], epochEmissions * weightBps, 10_000)
    {
      var epoch, start;
      r, epoch, start := EpochHandler(slot);
      if r.Failed? { return; }
      if epoch <= lastCheckpointEpoch {
        WriteEpoch(slot, epoch, start);
        return;
      }
      var total, rate, distributed;
      r, total, rate, distributed := AllocationHandler();
      if r.Failed? { return; }
      WriteEpoch(slot, epoch, start);
      WriteAllocation(total, rate, distributed);
      assert allocations[currentEpoch] == total - old(pendingEmissions);
    }

    method CheckpointOtherGauge(slot: u64) returns (r: Outcome)
      requires currentEpoch < U64 && 0 < slotsPerEpoch
      modifies this
      ensures r.Done? <==> old(Advanced(Accounts(), slot).currentEpoch < U64)
      ensures Accounts() == old(if r.Done? then Advanced(Accounts(), slot) else Accounts())
    {
      var epoch, start;
      r, epoch, start := EpochHandler(slot);
      if r.Failed? { return; }
      WriteEpoch(slot, epoch, start);
    }

    method Configure(ix: Instruction) returns (r: Outcome)
      requires ix.SetGaugeWeight? || ix.SetEpochEmissions? || ix.SetRewardsVault?
      modifies this
      ensures r.Done? <==> old(Accepts(Accounts(), ix))
      ensures Accounts() == old(Step(Accounts(), ix))
    {
      match ix {
        case SetGaugeWeight(bps) =>
          :- Require(bps <= 10_000, InvalidWeight);
          weightBps := bps;
        case SetEpochEmissions(amount) =>
          :- Require(amount > 0, ZeroAmount);
          epochEmissions, peakEmissions := amount, Max(peakEmissions, amount);
        case SetRewardsVault(balance) =>
          rewardsVault := balance;
      }
      r := Done;
    }

    lemma StakersAreSane(user: Id)
      requires Valid()
      ensures Sane(ShareOf(stakes, user))
    {
      FairAt(BookOf(Accounts()), user);
      if user in stakes {
        EarnedBounds(stakes[user], rewardPerToken, totalDistributed);
      }
    }

    /** One transaction: the program takes exactly the step the rules allow, and stays valid. */
    method Execute(ix: Instruction) returns (r: Outcome)
      requires Valid()
      modifies this
      ensures Valid()
      ensures Accounts() == Step(old(Accounts()), ix)
      ensures r.Done? <==> Accepts(old(Accounts()), ix)
    {
      StepKeepsInv(Accounts(), ix);
      if ix.CheckpointGauge? {
        r := CheckpointGauge(ix.slot);
      } else if ix.CheckpointOtherGauge? {
        r := CheckpointOtherGauge(ix.slot);
      } else if ix.SetGaugeWeight? || ix.SetEpochEmissions? || ix.SetRewardsVault? {
        r := Configure(ix);
      } else {
        StakersAreSane(ix.user);
        match ix
        case DepositLp(user, amount, held) => r := DepositLp(user, amount, held);
        case WithdrawLp(user, amount) => r := WithdrawLp(user, amount);
        case ClaimRewards(user) => r := ClaimRewards(user);
        case ForceWithdrawLp(user) => r := ForceWithdrawLp(user);
      }
    }
  }
}
