/** What every instruction of a gauge moves, to the unit: amounts are given by the inequalities that
    define rounding down, and whatever is not named stays as it was. */
module GaugeAmounts {
  import opened Arithmetic
  import opened MapSums
  import opened Accumulator
  import opened Gauges
  import opened GaugeTheorems

  /** A deposit moves its amount into stake, total and LP vault, and keeps what was earned so far. */
  lemma DepositMoves(s: State, user: Id, amount: u64, held: u64)
    requires Accepts(s, DepositLp(user, amount, held))
    ensures var t, sh := Apply(s, DepositLp(user, amount, held)), ShareOf(s.stakes, user);
      && user in t.stakes && IsResettled(sh, t.stakes[user], s.rewardPerToken, sh.weight + amount)
      && t == s.(stakes := s.stakes[user := t.stakes[user]], totalLp := s.totalLp + amount,
                 lpVault := s.lpVault + amount, changes := t.changes)
  {
    SettledIs(ShareOf(s.stakes, user), s.rewardPerToken, ShareOf(s.stakes, user).weight + amount);
  }

  /** A withdrawal takes its amount out of stake, total and LP vault, and keeps what was earned so far. */
  lemma WithdrawalMoves(s: State, user: Id, amount: u64)
    requires Accepts(s, WithdrawLp(user, amount))
    ensures var t, sh := Apply(s, WithdrawLp(user, amount)), ShareOf(s.stakes, user);
      && user in t.stakes && IsResettled(sh, t.stakes[user], s.rewardPerToken, sh.weight - amount)
      && t == s.(stakes := s.stakes[user := t.stakes[user]], totalLp := s.totalLp - amount,
                 lpVault := s.lpVault - amount, changes := t.changes)
  {
    SettledIs(ShareOf(s.stakes, user), s.rewardPerToken, ShareOf(s.stakes, user).weight - amount);
  }

  /** A claim pays what was pending and what was earned since, out of the rewards vault. */
  lemma ClaimPays(s: State, user: Id, earned: int)
    requires Accepts(s, ClaimRewards(user)) && IsEarned(earned, s.stakes[user], s.rewardPerToken)
    ensures var t, sh := Apply(s, ClaimRewards(user)), s.stakes[user];
      && user in t.stakes && t.stakes[user].weight == sh.weight && t.stakes[user].pending == 0
      && t.stakes[user].debt == sh.debt + earned
      && t == s.(stakes := s.stakes[user := t.stakes[user]], rewardsVault := s.rewardsVault - (sh.pending + earned),
                 paid := s.paid + (sh.pending + earned))
  {
    EarnedUnique(earned, s.stakes[user], s.rewardPerToken);
  }

  /** A forced exit returns the whole stake, and pays what is due as far as the rewards vault goes. */
  lemma ForcedExitPays(s: State, user: Id, earned: int)
    requires Accepts(s, ForceWithdrawLp(user)) && IsEarned(earned, s.stakes[user], s.rewardPerToken)
    ensures var t, sh := Apply(s, ForceWithdrawLp(user)), s.stakes[user];
      var payout := if sh.pending + earned <= s.rewardsVault then sh.pending + earned else s.rewardsVault;
      t == s.(stakes := s.stakes - {user}, totalLp := s.totalLp - sh.weight, lpVault := s.lpVault - sh.weight,
              rewardsVault := s.rewardsVault - payout, paid := s.paid + payout)
  {
    EarnedUnique(earned, s.stakes[user], s.rewardPerToken);
  }

  /** The clock: one epoch at a time, once its slots have passed. */
  ghost predicate IsAdvanced(s: State, t: State, slot: nat) {
    var next := s.epochStartSlot + s.slotsPerEpoch <= slot && s.epochStartSlot <= slot;
    && t.currentEpoch == s.currentEpoch + (if next then 1 else 0)
    && t.epochStartSlot == s.epochStartSlot + (if next then s.slotsPerEpoch else 0)
    && t.latestSlot == (if s.latestSlot <= slot then slot else s.latestSlot)
  }

  lemma AdvancedIs(s: State, slot: nat)
    requires 0 < s.slotsPerEpoch
    ensures var a := Advanced(s, slot);
      && IsAdvanced(s, a, slot)
      && a == s.(currentEpoch := a.currentEpoch, epochStartSlot := a.epochStartSlot, latestSlot := a.latestSlot)
  {
  }

  /** What an epoch newly allocates to a gauge: the gauge's weight of the emission. */
  ghost predicate IsAllocation(amount: int, s: State) {
    IsFloor(amount, s.epochEmissions * s.weightBps, 10_000)
  }

  lemma AllocationIs(s: State)
    ensures IsAllocation(Allocation(s), s)
  {
    FloorIs(s.epochEmissions * s.weightBps, BPS);
  }

  /** Emission and rollover go to the stakers, over their LP tokens, or to the next epoch without any. */
  ghost predicate IsAllocated(s: State, t: State, amount: nat) {
    && t.lastCheckpointEpoch == t.currentEpoch && t.allocations == s.allocations[t.currentEpoch := amount]
    && if s.totalLp == 0 then
         && t.pendingEmissions == s.pendingEmissions + amount
         && t.totalDistributed == s.totalDistributed && t.rewardPerToken == s.rewardPerToken
       else
         && t.pendingEmissions == 0 && t.totalDistributed == s.totalDistributed + s.pendingEmissions + amount
         && IsFloor(t.rewardPerToken - s.rewardPerToken, (s.pendingEmissions + amount) * 1_000_000_000_000, s.totalLp)
  }

  lemma AllocatedIs(s: State)
    ensures IsAllocated(s, Allocated(s), Allocation(s))
  {
    if 0 < s.totalLp { FloorIs((Allocation(s) + s.pendingEmissions) * REWARD_SCALE, s.totalLp); }
  }

  /** A checkpoint: the clock, and, once per epoch, the gauge's weight of the emission with what was
      rolled over. Stakes and vaults stay as they are. */
  lemma CheckpointAllocates(s: State, slot: u64, amount: nat)
    requires 0 < s.slotsPerEpoch && Accepts(s, CheckpointGauge(slot)) && IsAllocation(amount, s)
    ensures var t := Apply(s, CheckpointGauge(slot));
      && IsAdvanced(s, t, slot)
      && (s.lastCheckpointEpoch < t.currentEpoch ==> IsAllocated(s, t, amount))
      && t == (if s.lastCheckpointEpoch < t.currentEpoch
               then s.(currentEpoch := t.currentEpoch, epochStartSlot := t.epochStartSlot, latestSlot := t.latestSlot,
                       lastCheckpointEpoch := t.lastCheckpointEpoch, allocations := t.allocations,
                       pendingEmissions := t.pendingEmissions, totalDistributed := t.totalDistributed,
                       rewardPerToken := t.rewardPerToken)
               else s.(currentEpoch := t.currentEpoch, epochStartSlot := t.epochStartSlot, latestSlot := t.latestSlot))
  {
    AdvancedIs(s, slot);
    FloorUnique(amount, s.epochEmissions * s.weightBps, BPS);
    AllocatedIs(Advanced(s, slot));
  }

  // --- What is refused --------------------------------------------------------

  /** The integer widths that a settlement has to fit. */
  ghost predicate SettlementFits(s: State, user: Id) {
    ShareOf(s.stakes, user).weight * s.rewardPerToken < U128 && Pending(s, user) < U64
  }

  lemma CanSettleIff(s: State, user: Id)
    requires Inv(s)
    ensures CanSettle(s, user) <==> SettlementFits(s, user)
  {
    SettlementIsExact(s, user);
  }

  /** Only an inactive gauge, a deposit below 1,000 or above what is held, and the integer widths are
      reasons to refuse a deposit. */
  lemma DepositIsAcceptedIff(s: State, user: Id, amount: u64, held: u64)
    requires Inv(s)
    ensures Accepts(s, DepositLp(user, amount, held)) <==>
      && 1_000 <= amount <= held && s.active && SettlementFits(s, user)
      && s.totalLp + amount < U64 && (ShareOf(s.stakes, user).weight + amount) * s.rewardPerToken < U128
  {
    CanSettleIff(s, user);
    SettlementIsExact(s, user);
  }

  /** A withdrawal leaves nothing or at least 1,000; the gauge's counters and vault never refuse it. */
  lemma WithdrawalIsAcceptedIff(s: State, user: Id, amount: u64)
    requires Inv(s)
    ensures Accepts(s, WithdrawLp(user, amount)) <==>
      && user in s.stakes && SettlementFits(s, user) && 0 < amount
      && (amount == s.stakes[user].weight || amount + 1_000 <= s.stakes[user].weight)
  {
    CanSettleIff(s, user);
    SettlementIsExact(s, user);
  }

  /** A claim is refused without anything due and without the RISE to pay it; a forced exit only
      without a stake. */
  lemma PayoutsAreAcceptedIff(s: State, user: Id, earned: int)
    requires Inv(s) && user in s.stakes && IsEarned(earned, s.stakes[user], s.rewardPerToken)
    ensures Accepts(s, ClaimRewards(user)) <==>
      SettlementFits(s, user) && 0 < s.stakes[user].pending + earned <= s.rewardsVault
    ensures Accepts(s, ForceWithdrawLp(user)) <==> SettlementFits(s, user) && 0 < s.stakes[user].weight
  {
    CanSettleIff(s, user);
    SettlementIsExact(s, user);
    EarnedUnique(earned, s.stakes[user], s.rewardPerToken);
  }

  /** Nothing but the integer widths refuses a checkpoint. */
  lemma CheckpointIsAcceptedIff(s: State, slot: u64, amount: nat, rise: nat)
    requires 0 < s.slotsPerEpoch && IsAllocation(amount, s)
    requires 0 < s.totalLp ==> IsFloor(rise, (amount + s.pendingEmissions) * 1_000_000_000_000, s.totalLp)
    ensures var due := s.lastCheckpointEpoch < Advanced(s, slot).currentEpoch;
      Accepts(s, CheckpointGauge(slot)) <==>
        && Advanced(s, slot).currentEpoch < U64 && (due ==> amount + s.pendingEmissions < U64)
        && (due && 0 < s.totalLp ==>
              s.rewardPerToken + rise < U128 && s.totalDistributed + (amount + s.pendingEmissions) < U64)
  {
    AdvancedIs(s, slot);
    FloorUnique(amount, s.epochEmissions * s.weightBps, BPS);
    if 0 < s.totalLp { FloorUnique(rise, (amount + s.pendingEmissions) * 1_000_000_000_000, s.totalLp); }
  }
}
