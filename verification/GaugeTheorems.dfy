/** What the accounting of a liquidity gauge guarantees over whole runs. */
module GaugeTheorems {
  import opened Arithmetic
  import opened MapSums
  import opened Accumulator
  import opened Gauges

  ghost const PendingRewards: Share -> int := (sh: Share) => sh.pending

  /** Accrued since the last synchronisation, scaled by REWARD_SCALE. */
  ghost function Accrued(rate: nat): Share -> int {
    (sh: Share) => sh.weight * rate - REWARD_SCALE * sh.debt
  }

  /** An accepted deposit or withdrawal: the only steps that may cost a rounding unit. */
  predicate IsRestake(s: State, ix: Instruction) { (ix.DepositLp? || ix.WithdrawLp?) && Accepts(s, ix) }

  /** The LP amount after a restake. */
  function NewWeight(s: State, ix: Instruction): nat
    requires IsRestake(s, ix)
  {
    var lp := ShareOf(s.stakes, ix.user).weight;
    if ix.DepositLp? then lp + ix.amount else lp - ix.amount
  }

  function Restakes(s: State, ixs: seq<Instruction>): nat
    decreases |ixs|
  {
    if ixs == [] then 0 else (if IsRestake(s, ixs[0]) then 1 else 0) + Restakes(Step(s, ixs[0]), ixs[1..])
  }

  lemma CheckpointKeepsChanges(s: State, slot: nat)
    ensures Checkpointed(s, slot).changes == s.changes
  {
  }

  lemma StepChanges(s: State, ix: Instruction)
    ensures Step(s, ix).changes == s.changes + if IsRestake(s, ix) then 1 else 0
  {
    if ix.CheckpointGauge? { CheckpointKeepsChanges(s, ix.slot); }
  }

  lemma {:induction false} ChangesAreRestakes(s: State, ixs: seq<Instruction>)
    ensures Run(s, ixs).changes == s.changes + Restakes(s, ixs)
    decreases |ixs|
  {
    if ixs == [] {
    } else {
      StepChanges(s, ixs[0]);
      ChangesAreRestakes(Step(s, ixs[0]), ixs[1..]);
    }
  }

  lemma LiabilitySplits(s: State)
    ensures Liability(BookOf(s))
      == REWARD_SCALE * (s.paid + Sum(s.stakes, PendingRewards)) + Sum(s.stakes, Accrued(s.rewardPerToken))
  {
    SumLinear(s.stakes, Owed(s.rewardPerToken), Accrued(s.rewardPerToken), PendingRewards, REWARD_SCALE);
  }

  /** Gauge solvency: over every run since creation, everything paid, pending and accrued is
      covered by what was distributed, up to less than one base unit per accepted deposit or
      withdrawal. */
  lemma GaugeSolvency(s0: State, ixs: seq<Instruction>)
    requires Created(s0)
    ensures var s := Run(s0, ixs);
      && REWARD_SCALE * (s.paid + Sum(s.stakes, PendingRewards)) + Sum(s.stakes, Accrued(s.rewardPerToken))
           <= REWARD_SCALE * s.totalDistributed + (REWARD_SCALE - 1) * Restakes(s0, ixs)
      && s.changes == Restakes(s0, ixs)
      && (forall k :: k in s.stakes ==> 0 <= Accrued(s.rewardPerToken)(s.stakes[k]))
      && s.totalLp == Sum(s.stakes, Weight) <= s.lpVault
  {
    var s := Run(s0, ixs);
    CreatedInv(s0);
    RunKeepsInv(s0, ixs);
    ChangesAreRestakes(s0, ixs);
    LiabilitySplits(s);
    forall k | k in s.stakes ensures 0 <= Accrued(s.rewardPerToken)(s.stakes[k]) {
      assert FairShare(s.stakes[k], s.rewardPerToken, s.totalDistributed);
    }
  }

  // --- Solvency without slack ---------------------------------------------------

  /** What a step costs through rounding. */
  ghost function StepDrift(s: State, ix: Instruction): int {
    if IsRestake(s, ix) then Drift(BookOf(s), ix.user, NewWeight(s, ix)) else 0
  }

  ghost function RunDrift(s: State, ixs: seq<Instruction>): int
    decreases |ixs|
  {
    if ixs == [] then 0 else StepDrift(s, ixs[0]) + RunDrift(Step(s, ixs[0]), ixs[1..])
  }

  lemma RestakeIsReweigh(s: State, ix: Instruction)
    requires Inv(s) && IsRestake(s, ix)
    ensures 0 <= Earned(ShareOf(s.stakes, ix.user), s.rewardPerToken)
    ensures BookOf(Step(s, ix)) == Reweigh(BookOf(s), ix.user, NewWeight(s, ix))
  {
  }

  /** A deposit or withdrawal keeps the gauge's liability from growing if and only if its new
      entitlement is rounded down by no more than the old one. */
  lemma RestakeKeepsLiabilityIff(s: State, ix: Instruction)
    requires Inv(s) && IsRestake(s, ix)
    ensures Liability(BookOf(Step(s, ix))) == Liability(BookOf(s)) + StepDrift(s, ix)
    ensures Liability(BookOf(Step(s, ix))) <= Liability(BookOf(s)) <==>
      Withheld(NewWeight(s, ix), s.rewardPerToken) <= Withheld(ShareOf(s.stakes, ix.user).weight, s.rewardPerToken)
  {
    RestakeIsReweigh(s, ix);
    ReweighChangesLiability(BookOf(s), ix.user, NewWeight(s, ix));
  }

  lemma AllocationCosts(s: State)
    requires Backed(s)
    ensures var t := Allocated(s);
      Liability(BookOf(t)) - REWARD_SCALE * t.totalDistributed <= Liability(BookOf(s)) - REWARD_SCALE * s.totalDistributed
  {
    if 0 < s.totalLp {
      var total := Allocation(s) + s.pendingEmissions;
      EmitCosts(BookOf(s), total, s.totalLp);
      assert BookOf(Allocated(s)) == Emit(BookOf(s), total, s.totalLp);
    } else {
      assert BookOf(Allocated(s)) == BookOf(s);
    }
  }

  lemma CheckpointCosts(s: State, slot: nat)
    requires Backed(s)
    ensures var t := Checkpointed(s, slot);
      Liability(BookOf(t)) - REWARD_SCALE * t.totalDistributed <= Liability(BookOf(s)) - REWARD_SCALE * s.totalDistributed
  {
    var a := Advanced(s, slot);
    assert BookOf(a) == BookOf(s);
    if a.lastCheckpointEpoch < a.currentEpoch { AllocationCosts(a); }
  }

  lemma ExitCosts(s: State, user: Id)
    requires CanForceWithdraw(s, user)
    ensures Liability(BookOf(ForceWithdrawn(s, user))) <= Liability(BookOf(s))
  {
    var payout := Min(Pending(s, user), s.rewardsVault);
    EvictLowersLiability(BookOf(s), user, payout);
    assert BookOf(ForceWithdrawn(s, user)) == Evict(BookOf(s), user, payout);
  }

  /** Beyond what it distributes, a step costs at most its drift. */
  lemma StepCosts(s: State, ix: Instruction)
    requires Inv(s)
    ensures var t := Step(s, ix);
      Liability(BookOf(t)) - REWARD_SCALE * t.totalDistributed
        <= Liability(BookOf(s)) - REWARD_SCALE * s.totalDistributed + StepDrift(s, ix)
  {
    if !Accepts(s, ix) {
    } else if ix.DepositLp? || ix.WithdrawLp? {
      RestakeKeepsLiabilityIff(s, ix);
    } else if ix.ClaimRewards? {
      ClaimIsConservative(s, ix.user);
    } else if ix.ForceWithdrawLp? {
      ExitCosts(s, ix.user);
    } else if ix.CheckpointGauge? {
      CheckpointCosts(s, ix.slot);
    } else {
      assert BookOf(Step(s, ix)) == BookOf(s);
    }
  }

  lemma {:induction false} RunCosts(s: State, ixs: seq<Instruction>)
    requires Inv(s)
    ensures var t := Run(s, ixs);
      Liability(BookOf(t)) - REWARD_SCALE * t.totalDistributed
        <= Liability(BookOf(s)) - REWARD_SCALE * s.totalDistributed + RunDrift(s, ixs)
    decreases |ixs|
  {
    if ixs == [] {
    } else {
      StepKeepsInv(s, ixs[0]);
      StepCosts(s, ixs[0]);
      RunCosts(Step(s, ixs[0]), ixs[1..]);
    }
  }

  /** The exact form of gauge solvency, over every run: what rounding costs is the sum of the remainder
      differences of its deposits and withdrawals, whatever their sign. */
  lemma GaugeSolvencyWithDrift(s0: State, ixs: seq<Instruction>)
    requires Created(s0)
    ensures var s := Run(s0, ixs);
      REWARD_SCALE * (s.paid + Sum(s.stakes, PendingRewards)) + Sum(s.stakes, Accrued(s.rewardPerToken))
        <= REWARD_SCALE * s.totalDistributed + RunDrift(s0, ixs)
  {
    CreatedInv(s0);
    RunCosts(s0, ixs);
    LiabilitySplits(Run(s0, ixs));
  }

  /** Every deposit and withdrawal that is accepted has its new entitlement rounded down by no more
      than the old one. */
  predicate Unfavoured(s: State, ixs: seq<Instruction>)
    decreases |ixs|
  {
    ixs == [] ||
      (&& (IsRestake(s, ixs[0]) ==>
             Withheld(NewWeight(s, ixs[0]), s.rewardPerToken)
               <= Withheld(ShareOf(s.stakes, ixs[0].user).weight, s.rewardPerToken))
       && Unfavoured(Step(s, ixs[0]), ixs[1..]))
  }

  lemma {:induction false} UnfavouredRunsDoNotDrift(s: State, ixs: seq<Instruction>)
    requires Unfavoured(s, ixs)
    ensures RunDrift(s, ixs) <= 0
    decreases |ixs|
  {
    if ixs == [] {
    } else {
      UnfavouredRunsDoNotDrift(Step(s, ixs[0]), ixs[1..]);
    }
  }

  /** In such runs solvency needs no slack at all. */
  lemma GaugeSolvencyWithoutSlack(s0: State, ixs: seq<Instruction>)
    requires Created(s0) && Unfavoured(s0, ixs)
    ensures var s := Run(s0, ixs);
      && REWARD_SCALE * (s.paid + Sum(s.stakes, PendingRewards)) + Sum(s.stakes, Accrued(s.rewardPerToken))
           <= REWARD_SCALE * s.totalDistributed
      && s.paid + Sum(s.stakes, PendingRewards) <= s.totalDistributed
  {
    var s := Run(s0, ixs);
    GaugeSolvencyWithDrift(s0, ixs);
    UnfavouredRunsDoNotDrift(s0, ixs);
    GaugeSolvency(s0, ixs);
    SumNonNegative(s.stakes, Accrued(s.rewardPerToken));
  }

  /** No settlement underflows or is narrowed, so the checked and the saturating forms agree. */
  lemma SettlementIsExact(s: State, user: Id)
    requires Inv(s)
    ensures 0 <= Earned(ShareOf(s.stakes, user), s.rewardPerToken) <= s.totalDistributed < U64
    ensures ShareOf(s.stakes, user).weight <= s.totalLp < U64
  {
    FairAt(BookOf(s), user);
    if user in s.stakes {
      SumAtLeast(s.stakes, Weight, user);
    }
  }

  /** A staker can always take its whole stake back: only the width of its own settlement can
      stand in the way, never the gauge's counters or its LP vault. */
  lemma ExitIsOpen(s: State, user: Id, lp: u64)
    requires Inv(s) && user in s.stakes && 0 < s.stakes[user].weight == lp
    ensures Accepts(s, WithdrawLp(user, lp)) <==>
      lp * s.rewardPerToken < U128 && Pending(s, user) < U64
  {
    SettlementIsExact(s, user);
  }

  /** A claim pays exactly what was pending and leaves the gauge's liability unchanged. */
  lemma ClaimIsConservative(s: State, user: Id)
    requires Inv(s) && Accepts(s, ClaimRewards(user))
    ensures var t := Apply(s, ClaimRewards(user));
      && Liability(BookOf(t)) == Liability(BookOf(s))
      && t.paid - s.paid == Pending(s, user) == s.rewardsVault - t.rewardsVault
      && Pending(t, user) == 0
  {
    CollectIsExact(BookOf(s), user);
    var t := Apply(s, ClaimRewards(user));
    assert BookOf(t) == Collect(BookOf(s), user);
  }

  /** Nobody else can reduce what a staker has pending, and its own deposits and
      withdrawals preserve it exactly. */
  lemma PendingNeverFalls(s: State, ix: Instruction, user: Id)
    requires Inv(s)
    requires ix != ClaimRewards(user) && ix != ForceWithdrawLp(user)
    ensures Pending(s, user) <= Pending(Step(s, ix), user)
    ensures (ix.DepositLp? || ix.WithdrawLp?) ==> Pending(Step(s, ix), user) == Pending(s, user)
  {
    if ix.CheckpointGauge? {
      RateNeverFalls(s, ix.slot);
      EntitlementGrows(ShareOf(s.stakes, user).weight, s.rewardPerToken, Step(s, ix).rewardPerToken);
    } else {
      OthersLeaveShareAlone(s, ix, user);
    }
  }

  lemma OthersLeaveShareAlone(s: State, ix: Instruction, user: Id)
    requires !ix.CheckpointGauge? && ix != ClaimRewards(user) && ix != ForceWithdrawLp(user)
    ensures var t := Step(s, ix);
      && t.rewardPerToken == s.rewardPerToken
      && (ShareOf(t.stakes, user) == ShareOf(s.stakes, user)
          || (Pending(t, user) == Pending(s, user) && (ix.DepositLp? || ix.WithdrawLp?)))
  {
  }

  lemma RateNeverFalls(s: State, slot: u64)
    ensures var t := Step(s, CheckpointGauge(slot));
      t.stakes == s.stakes && s.rewardPerToken <= t.rewardPerToken
  {
  }

  lemma EntitlementGrows(weight: nat, rate: nat, rate': nat)
    requires rate <= rate'
    ensures Entitled(weight, rate) <= Entitled(weight, rate')
  {
    MulMonotone(rate, rate', weight);
    FloorMonotone(weight * rate, weight * rate', REWARD_SCALE);
  }

  /** Emissions against the clock: all a gauge was ever allocated is at most the peak epoch
      emission for every whole epoch between its creation and the latest slot seen. */
  lemma EmissionsAgainstClock(s0: State, ixs: seq<Instruction>)
    requires Created(s0)
    ensures var s := Run(s0, ixs);
      && s.epochStartSlot == s.initSlot + s.currentEpoch * s.slotsPerEpoch <= s.latestSlot
      && Sum(s.allocations, Amount) == s.totalDistributed + s.pendingEmissions
      && (s.totalDistributed + s.pendingEmissions) * s.slotsPerEpoch
           <= s.peakEmissions * (s.latestSlot - (s.initSlot + s.createdEpoch * s.slotsPerEpoch))
  {
    var s := Run(s0, ixs);
    CreatedInv(s0);
    RunKeepsInv(s0, ixs);
    MulMonotone(s.lastCheckpointEpoch, s.currentEpoch, s.slotsPerEpoch);
    EpochsAgainstSlots(s.totalDistributed + s.pendingEmissions, s.peakEmissions,
                       s.createdEpoch, s.lastCheckpointEpoch, s.slotsPerEpoch, s.latestSlot - s.initSlot);
  }

  lemma EpochsAgainstSlots(total: nat, peak: nat, first: nat, last: nat, slots: nat, elapsed: nat)
    requires first <= last && total <= peak * (last - first)
    requires last * slots <= elapsed
    ensures total * slots <= peak * (elapsed - first * slots)
  {
    MulMonotone(total, peak * (last - first), slots);
    assert (last - first) * slots == last * slots - first * slots;
    MulMonotone((last - first) * slots, elapsed - first * slots, peak);
    assert peak * (last - first) * slots == peak * ((last - first) * slots);
  }

  // --- The rounding slack is real ---------------------------------------------

  /** A fully weighted gauge emitting one base unit per epoch, `epoch` epochs after its creation. */
  ghost predicate TinyAt(s: State, epoch: nat, rate: nat, totalLp: nat) {
    && s.epochEmissions == 1 && s.weightBps == BPS && s.active && s.pendingEmissions == 0
    && s.currentEpoch == s.lastCheckpointEpoch && s.currentEpoch + 2 < U64 + epoch
    && s.slotsPerEpoch > 0 && s.epochStartSlot + 2 * s.slotsPerEpoch < U64 + epoch * s.slotsPerEpoch
    && s.totalDistributed == epoch && s.rewardPerToken == rate && s.totalLp == totalLp
  }

  /** A staker with this LP amount and debt, nothing pending. */
  ghost predicate Has(s: State, user: Id, weight: nat, debt: nat) {
    user in s.stakes && s.stakes[user] == Share(weight, debt, 0)
  }

  lemma {:induction false} RunThen(s: State, ixs: seq<Instruction>, ix: Instruction)
    ensures Run(s, ixs + [ix]) == Step(Run(s, ixs), ix)
    decreases |ixs|
  {
    if ixs == [] {
      assert (ixs + [ix])[1..] == [];
    } else {
      assert (ixs + [ix])[1..] == ixs[1..] + [ix];
      RunThen(Step(s, ixs[0]), ixs[1..], ix);
    }
  }

  lemma TinyDeposit(s0: State, ixs: seq<Instruction>, s: State, epoch: nat, user: Id, amount: u64)
    returns (ixs': seq<Instruction>, t: State)
    requires s == Run(s0, ixs) && TinyAt(s, epoch, s.rewardPerToken, s.totalLp) && user !in s.stakes
    requires MIN_DEPOSIT <= amount <= 2_000 && s.rewardPerToken <= REWARD_SCALE && s.totalLp <= 10_000
    ensures t == Run(s0, ixs') && TinyAt(t, epoch, s.rewardPerToken, s.totalLp + amount)
    ensures t.paid == s.paid && t.rewardsVault == s.rewardsVault
    ensures Has(t, user, amount, Entitled(amount, s.rewardPerToken))
    ensures t.stakes.Keys == s.stakes.Keys + {user}
    ensures forall k :: k in s.stakes ==> t.stakes[k] == s.stakes[k]
  {
    MulMonotone(amount, 2_000, s.rewardPerToken);
    assert ShareOf(s.stakes, user) == NO_SHARE;
    var ix := DepositLp(user, amount, amount);
    assert Accepts(s, ix);
    RunThen(s0, ixs, ix);
    ixs', t := ixs + [ix], Step(s, ix);
  }

  lemma TinyCheckpoint(s0: State, ixs: seq<Instruction>, s: State, epoch: nat)
    returns (ixs': seq<Instruction>, t: State)
    requires s == Run(s0, ixs) && epoch < 2 && TinyAt(s, epoch, s.rewardPerToken, s.totalLp)
    requires 1_000 <= s.totalLp && s.rewardPerToken <= REWARD_SCALE
    ensures t == Run(s0, ixs') && TinyAt(t, epoch + 1, s.rewardPerToken + REWARD_SCALE / s.totalLp, s.totalLp)
    ensures t.stakes == s.stakes && t.paid == s.paid && t.rewardsVault == s.rewardsVault
  {
    assert (epoch + 1) * s.slotsPerEpoch == epoch * s.slotsPerEpoch + s.slotsPerEpoch;
    MulMonotone(epoch, 1, s.slotsPerEpoch);
    var ix := CheckpointGauge(s.epochStartSlot + s.slotsPerEpoch);
    assert Allocation(s) == 1;
    RunThen(s0, ixs, ix);
    ixs', t := ixs + [ix], Step(s, ix);
  }

  /** A staker who is due exactly one unit. */
  ghost predicate IsDueOne(s: State, user: Id) {
    && user in s.stakes && s.stakes[user].pending == 0 && s.stakes[user].weight <= 2_000
    && Earned(s.stakes[user], s.rewardPerToken) == 1
  }

  lemma TinyClaim(s0: State, ixs: seq<Instruction>, s: State, user: Id)
    returns (ixs': seq<Instruction>, t: State)
    requires s == Run(s0, ixs)
    requires s.rewardPerToken == 1_200_080_032 && s.rewardsVault >= 1 && IsDueOne(s, user)
    ensures t == Run(s0, ixs') && t.paid == s.paid + 1 && t.rewardsVault == s.rewardsVault - 1
    ensures t.rewardPerToken == s.rewardPerToken && t.totalDistributed == s.totalDistributed
    ensures forall k :: k in s.stakes && k != user ==> k in t.stakes && t.stakes[k] == s.stakes[k]
  {
    var ix := ClaimRewards(user);
    RunThen(s0, ixs, ix);
    ixs', t := ixs + [ix], Step(s, ix);
  }

  lemma TinyStart(s0: State) returns (ixs: seq<Instruction>, s: State)
    requires Created(s0) && s0.epochEmissions == 1
    requires s0.currentEpoch + 2 < U64 && s0.epochStartSlot + 2 * s0.slotsPerEpoch < U64
    ensures s == Run(s0, ixs) && TinyAt(s, 0, 0, 0) && s.stakes == map[]
    ensures s.paid == 0 && s.rewardsVault == s0.rewardsVault
  {
    RunThen(s0, [], SetGaugeWeight(BPS));
    ixs, s := [] + [SetGaugeWeight(BPS)], Step(s0, SetGaugeWeight(BPS));
  }

  /** One staker has the whole first unit pending. */
  lemma TinyFirst(s0: State) returns (ixs: seq<Instruction>, s: State)
    requires Created(s0) && s0.epochEmissions == 1
    requires s0.currentEpoch + 2 < U64 && s0.epochStartSlot + 2 * s0.slotsPerEpoch < U64
    ensures s == Run(s0, ixs) && TinyAt(s, 1, 1_000_000_000, 1_000) && s.stakes.Keys == {1} && Has(s, 1, 1_000, 0)
    ensures s.paid == 0 && s.rewardsVault == s0.rewardsVault
  {
    ixs, s := TinyStart(s0);
    ixs, s := TinyDeposit(s0, ixs, s, 0, 1, 1_000);
    ixs, s := TinyCheckpoint(s0, ixs, s, 0);
  }

  /** Two more join, each just short of one more unit of debt; after the second unit each of the three is
      due one. */
  lemma TinyJoin(s0: State) returns (ixs: seq<Instruction>, s: State)
    requires Created(s0) && s0.epochEmissions == 1 && 3 <= s0.rewardsVault
    requires s0.currentEpoch + 2 < U64 && s0.epochStartSlot + 2 * s0.slotsPerEpoch < U64
    ensures s == Run(s0, ixs) && s.paid == 0 && s.totalDistributed == 2 && 3 <= s.rewardsVault
    ensures s.rewardPerToken == 1_200_080_032 && IsDueOne(s, 1) && IsDueOne(s, 2) && IsDueOne(s, 3)
  {
    ixs, s := TinyFirst(s0);
    ixs, s := TinyDeposit(s0, ixs, s, 1, 2, 1_999);
    ixs, s := TinyDeposit(s0, ixs, s, 1, 3, 1_999);
    ixs, s := TinyCheckpoint(s0, ixs, s, 1);
  }

  /** Without the slack the bound fails on every new gauge that emits one unit per epoch. */
  lemma ExactSolvencyFails(s0: State) returns (ixs: seq<Instruction>)
    requires Created(s0) && s0.epochEmissions == 1 && 3 <= s0.rewardsVault
    requires s0.currentEpoch + 2 < U64 && s0.epochStartSlot + 2 * s0.slotsPerEpoch < U64
    ensures Run(s0, ixs).paid == 3 && Run(s0, ixs).totalDistributed == 2
  {
    var s;
    ixs, s := TinyJoin(s0);
    ixs, s := TinyClaim(s0, ixs, s, 1);
    ixs, s := TinyClaim(s0, ixs, s, 2);
    ixs, s := TinyClaim(s0, ixs, s, 3);
  }
}
