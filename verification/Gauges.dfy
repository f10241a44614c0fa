/** The rules of one liquidity gauge (rise-rewards) and of the epoch counter it shares with
    the other gauges, as a state machine over instructions.

    The first group of fields is account data, the second the token vaults, the third is
    history that no account stores but the statements below speak about. */
module Gauges {
  import opened Arithmetic
  import opened MapSums
  import opened Accumulator

  const SLOTS_PER_EPOCH: nat := 604_800
  const MIN_DEPOSIT: nat := 1_000

  datatype State = State(
    // RewardsConfig
    epochEmissions: nat, currentEpoch: nat, epochStartSlot: nat, slotsPerEpoch: nat,
    // Gauge and its UserStake accounts
    weightBps: nat, active: bool, rewardPerToken: nat, totalLp: nat,
    lastCheckpointEpoch: nat, totalDistributed: nat, pendingEmissions: nat,
    stakes: map<Id, Share>,
    // token vaults
    rewardsVault: nat, lpVault: nat,
    // history
    paid: nat, changes: nat, allocations: map<Id, nat>,
    initSlot: nat, createdEpoch: nat, peakEmissions: nat, latestSlot: nat)

  /** `held` is the balance of the token account that an instruction draws on. */
  datatype Instruction =
    | DepositLp(user: Id, amount: u64, held: u64)
    | WithdrawLp(user: Id, amount: u64)
    | ClaimRewards(user: Id)
    | ForceWithdrawLp(user: Id)
    | CheckpointGauge(slot: u64)
    | CheckpointOtherGauge(slot: u64)
    | SetGaugeWeight(bps: u64)
    | SetEpochEmissions(amount: u64)
    | SetRewardsVault(balance: nat)   // funding, and claims on other gauges

  ghost function BookOf(s: State): Book {
    Book(s.rewardPerToken, s.stakes, s.totalDistributed, s.paid, s.changes)
  }

  ghost const Amount: nat -> int := (x: nat) => x

  // --- Invariant --------------------------------------------------------------

  /** The gauge owes its stakers what it distributed, up to the rounding slack;
      its LP vault covers every stake. */
  ghost predicate Backed(s: State) {
    && Sound(BookOf(s))
    && s.totalDistributed < U64
    && s.totalLp == Sum(s.stakes, Weight)
    && s.totalLp <= s.lpVault
    && s.totalLp < U64 && s.rewardPerToken < U128
    && (forall k :: k in s.stakes ==> s.stakes[k].pending < U64)
  }

  /** The epoch counter lags the clock. */
  ghost predicate Clocked(s: State) {
    && 0 < s.slotsPerEpoch
    && s.epochStartSlot == s.initSlot + s.currentEpoch * s.slotsPerEpoch
    && s.epochStartSlot <= s.latestSlot < U64 && s.currentEpoch < U64
  }

  /** Each epoch value is allocated at most once, and never more than the peak emission. */
  ghost predicate Allotted(s: State) {
    && s.createdEpoch <= s.lastCheckpointEpoch <= s.currentEpoch
    && s.weightBps <= BPS
    && s.epochEmissions <= s.peakEmissions < U64
    && (forall e :: e in s.allocations ==>
          s.createdEpoch < e <= s.lastCheckpointEpoch && s.allocations[e] <= s.peakEmissions)
    && Sum(s.allocations, Amount) == s.totalDistributed + s.pendingEmissions
    && s.totalDistributed + s.pendingEmissions <= s.peakEmissions * (s.lastCheckpointEpoch - s.createdEpoch)
  }

  ghost predicate OnSchedule(s: State) { Clocked(s) && Allotted(s) }

  ghost predicate Inv(s: State) { Backed(s) && OnSchedule(s) }

  /** The state right after `create_gauge`: an epoch counter already on schedule, an empty gauge. */
  ghost predicate Created(s: State) {
    && Clocked(s)
    && s.epochEmissions == s.peakEmissions < U64
    && s.weightBps == 0 && s.active && s.rewardPerToken == 0 && s.totalLp == 0
    && s.lastCheckpointEpoch == s.createdEpoch == s.currentEpoch
    && s.totalDistributed == 0 && s.pendingEmissions == 0
    && s.stakes == map[] && s.allocations == map[] && s.paid == 0 && s.changes == 0
  }

  // --- When an instruction goes through ---------------------------------------

  function Pending(s: State, user: Id): int {
    var sh := ShareOf(s.stakes, user);
    sh.pending + Earned(sh, s.rewardPerToken)
  }

  predicate CanSettle(s: State, user: Id) {
    var sh := ShareOf(s.stakes, user);
    && sh.weight * s.rewardPerToken < U128
    && 0 <= Earned(sh, s.rewardPerToken)
    && Pending(s, user) < U64
  }

  function Advanced(s: State, slot: nat): State {
    var t := s.(latestSlot := Max(s.latestSlot, slot));
    if SaturatingSub(slot, s.epochStartSlot) >= s.slotsPerEpoch then
      t.(currentEpoch := s.currentEpoch + 1, epochStartSlot := s.epochStartSlot + s.slotsPerEpoch)
    else t
  }

  function Allocation(s: State): nat { s.epochEmissions * s.weightBps / BPS }

  predicate CanAllocate(s: State) {
    var total := Allocation(s) + s.pendingEmissions;
    && total < U64
    && (0 < s.totalLp ==>
          && s.rewardPerToken + total * REWARD_SCALE / s.totalLp < U128
          && s.totalDistributed + total < U64)
  }

  predicate CanDeposit(s: State, user: Id, amount: nat, held: nat) {
    var lp := ShareOf(s.stakes, user).weight + amount;
    && MIN_DEPOSIT <= amount <= held && s.active && CanSettle(s, user)
    && lp < U64 && lp * s.rewardPerToken < U128 && s.totalLp + amount < U64
  }

  predicate CanWithdraw(s: State, user: Id, amount: nat) {
    var lp := ShareOf(s.stakes, user).weight - amount;
    && 0 < amount && user in s.stakes && (lp == 0 || MIN_DEPOSIT <= lp) && CanSettle(s, user)
    && amount <= s.lpVault && amount <= s.totalLp
  }

  predicate CanClaim(s: State, user: Id) {
    user in s.stakes && CanSettle(s, user) && 0 < Pending(s, user) <= s.rewardsVault
  }

  predicate CanForceWithdraw(s: State, user: Id) {
    && user in s.stakes && 0 < s.stakes[user].weight && CanSettle(s, user)
    && s.stakes[user].weight <= s.lpVault && s.stakes[user].weight <= s.totalLp
  }

  predicate CanCheckpoint(s: State, slot: nat) {
    var a := Advanced(s, slot);
    a.currentEpoch < U64 && (a.lastCheckpointEpoch < a.currentEpoch ==> CanAllocate(a))
  }

  // --- What an instruction does -----------------------------------------------

  /** Settle a staker and give it a new LP amount. */
  function Restaked(s: State, user: Id, lp: nat, totalLp: nat, lpVault: nat): State
    requires CanSettle(s, user)
  {
    var sh := ShareOf(s.stakes, user);
    s.(stakes := s.stakes[user := Settled(sh, s.rewardPerToken, lp)], totalLp := totalLp, lpVault := lpVault,
       changes := s.changes + if lp == sh.weight then 0 else 1)
  }

  function Deposited(s: State, user: Id, amount: nat): State
    requires CanSettle(s, user)
  {
    Restaked(s, user, ShareOf(s.stakes, user).weight + amount, s.totalLp + amount, s.lpVault + amount)
  }

  function Withdrawn(s: State, user: Id, amount: nat): State
    requires CanWithdraw(s, user, amount)
  {
    Restaked(s, user, ShareOf(s.stakes, user).weight - amount, s.totalLp - amount, s.lpVault - amount)
  }

  function Claimed(s: State, user: Id): State
    requires CanClaim(s, user)
  {
    var sh := Settled(s.stakes[user], s.rewardPerToken, s.stakes[user].weight);
    s.(stakes := s.stakes[user := sh.(pending := 0)],
       rewardsVault := s.rewardsVault - sh.pending, paid := s.paid + sh.pending)
  }

  function ForceWithdrawn(s: State, user: Id): State
    requires CanForceWithdraw(s, user)
  {
    var payout := Min(Pending(s, user), s.rewardsVault);
    s.(stakes := s.stakes - {user}, totalLp := s.totalLp - s.stakes[user].weight,
       lpVault := s.lpVault - s.stakes[user].weight,
       rewardsVault := s.rewardsVault - payout, paid := s.paid + payout)
  }

  /** Allocate the current epoch once: to the stakers if there are any, else carry it over. */
  function Allocated(s: State): State {
    var total := Allocation(s) + s.pendingEmissions;
    var t := s.(lastCheckpointEpoch := s.currentEpoch,
                allocations := s.allocations[s.currentEpoch := Allocation(s)]);
    if s.totalLp == 0 then t.(pendingEmissions := total)
    else t.(rewardPerToken := s.rewardPerToken + total * REWARD_SCALE / s.totalLp,
            totalDistributed := s.totalDistributed + total,
            pendingEmissions := 0)
  }

  function Checkpointed(s: State, slot: nat): State {
    var a := Advanced(s, slot);
    if a.currentEpoch <= a.lastCheckpointEpoch then a else Allocated(a)
  }

  predicate Accepts(s: State, ix: Instruction) {
    match ix
    case DepositLp(user, amount, held) => CanDeposit(s, user, amount, held)
    case WithdrawLp(user, amount) => CanWithdraw(s, user, amount)
    case ClaimRewards(user) => CanClaim(s, user)
    case ForceWithdrawLp(user) => CanForceWithdraw(s, user)
    case CheckpointGauge(slot) => CanCheckpoint(s, slot)
    case CheckpointOtherGauge(slot) => Advanced(s, slot).currentEpoch < U64
    case SetGaugeWeight(bps) => bps <= BPS
    case SetEpochEmissions(amount) => 0 < amount
    case SetRewardsVault(balance) => true
  }

  function Apply(s: State, ix: Instruction): State
    requires Accepts(s, ix)
  {
    match ix
    case DepositLp(user, amount, held) => Deposited(s, user, amount)
    case WithdrawLp(user, amount) => Withdrawn(s, user, amount)
    case ClaimRewards(user) => Claimed(s, user)
    case ForceWithdrawLp(user) => ForceWithdrawn(s, user)
    case CheckpointGauge(slot) => Checkpointed(s, slot)
    case CheckpointOtherGauge(slot) => Advanced(s, slot)
    case SetGaugeWeight(bps) => s.(weightBps := bps)
    case SetEpochEmissions(amount) =>
      s.(epochEmissions := amount, peakEmissions := Max(s.peakEmissions, amount))
    case SetRewardsVault(balance) => s.(rewardsVault := balance)
  }

  /** A refused instruction changes nothing. */
  function Step(s: State, ix: Instruction): State {
    if Accepts(s, ix) then Apply(s, ix) else s
  }

  function Run(s: State, ixs: seq<Instruction>): State
    decreases |ixs|
  {
    if ixs == [] then s else Run(Step(s, ixs[0]), ixs[1..])
  }

  // --- What every instruction keeps -------------------------------------------

  lemma CreatedInv(s: State)
    requires Created(s)
    ensures Inv(s)
  {
  }

  lemma RestakedKeepsBacked(s: State, user: Id, lp: nat, totalLp: nat, lpVault: nat)
    requires Backed(s) && CanSettle(s, user)
    requires totalLp - s.totalLp == lp - ShareOf(s.stakes, user).weight == lpVault - s.lpVault
    requires totalLp < U64
    ensures Backed(Restaked(s, user, lp, totalLp, lpVault))
  {
    ReweighKeepsSound(BookOf(s), user, lp);
    SumPut(s.stakes, Weight, user, Settled(ShareOf(s.stakes, user), s.rewardPerToken, lp));
    assert BookOf(Restaked(s, user, lp, totalLp, lpVault)) == Reweigh(BookOf(s), user, lp);
  }

  lemma ClaimKeepsBacked(s: State, user: Id)
    requires Backed(s) && CanClaim(s, user)
    ensures Backed(Claimed(s, user))
  {
    CollectKeepsSound(BookOf(s), user);
    var t := Claimed(s, user);
    SumPut(s.stakes, Weight, user, t.stakes[user]);
    assert BookOf(t) == Collect(BookOf(s), user);
  }

  lemma ForceWithdrawKeepsBacked(s: State, user: Id)
    requires Backed(s) && CanForceWithdraw(s, user)
    ensures Backed(ForceWithdrawn(s, user))
  {
    var payout := Min(Pending(s, user), s.rewardsVault);
    EvictKeepsSound(BookOf(s), user, payout);
    SumDrop(s.stakes, Weight, user);
    assert BookOf(ForceWithdrawn(s, user)) == Evict(BookOf(s), user, payout);
  }

  lemma AllocatedKeepsBacked(s: State)
    requires Backed(s) && CanAllocate(s)
    ensures Backed(Allocated(s))
  {
    if 0 < s.totalLp {
      var total := Allocation(s) + s.pendingEmissions;
      EmitKeepsSound(BookOf(s), total, s.totalLp);
      assert BookOf(Allocated(s)) == Emit(BookOf(s), total, s.totalLp);
    } else {
      assert BookOf(Allocated(s)) == BookOf(s);
    }
  }

  lemma AdvancedKeepsClocked(s: State, slot: u64)
    requires Clocked(s) && Advanced(s, slot).currentEpoch < U64
    ensures Clocked(Advanced(s, slot))
  {
    assert (s.currentEpoch + 1) * s.slotsPerEpoch == s.currentEpoch * s.slotsPerEpoch + s.slotsPerEpoch;
  }

  lemma AdvancedKeepsInv(s: State, slot: u64)
    requires Inv(s) && Advanced(s, slot).currentEpoch < U64
    ensures Inv(Advanced(s, slot))
  {
    AdvancedKeepsClocked(s, slot);
    assert BookOf(Advanced(s, slot)) == BookOf(s);
    assert Allotted(Advanced(s, slot)) by {
      assert s.currentEpoch <= Advanced(s, slot).currentEpoch;
    }
  }

  lemma AllocatedKeepsAllotted(s: State)
    requires Allotted(s) && s.lastCheckpointEpoch < s.currentEpoch
    ensures Allotted(Allocated(s))
  {
    ShareAtMost(s.epochEmissions, s.weightBps, BPS);
    SumPut(s.allocations, Amount, s.currentEpoch, Allocation(s));
    OneMoreEpoch(s.totalDistributed + s.pendingEmissions, Allocation(s), s.peakEmissions,
                 s.lastCheckpointEpoch - s.createdEpoch, s.currentEpoch - s.createdEpoch);
  }

  lemma OneMoreEpoch(total: nat, more: nat, peak: nat, before: nat, after: nat)
    requires total <= peak * before && more <= peak && before < after
    ensures total + more <= peak * after
  {
    MulMonotone(before + 1, after, peak);
    assert peak * (before + 1) == peak * before + peak;
  }

  lemma CheckpointKeepsInv(s: State, slot: u64)
    requires Inv(s) && CanCheckpoint(s, slot)
    ensures Inv(Checkpointed(s, slot))
  {
    AdvancedKeepsInv(s, slot);
    var a := Advanced(s, slot);
    if a.lastCheckpointEpoch < a.currentEpoch {
      AllocatedKeepsBacked(a);
      AllocatedKeepsAllotted(a);
    }
  }

  /** Stakers' instructions leave the epoch counter and the allocations alone. */
  lemma StakersKeepOnSchedule(s: State, ix: Instruction)
    requires OnSchedule(s) && Accepts(s, ix)
    requires ix.DepositLp? || ix.WithdrawLp? || ix.ClaimRewards? || ix.ForceWithdrawLp?
    ensures OnSchedule(Apply(s, ix))
  {
  }

  /** Configuration leaves the stakes alone. */
  lemma ConfigKeepsInv(s: State, ix: Instruction)
    requires Inv(s) && Accepts(s, ix)
    requires ix.SetGaugeWeight? || ix.SetEpochEmissions? || ix.SetRewardsVault?
    ensures Inv(Apply(s, ix))
  {
    var t := Apply(s, ix);
    assert BookOf(t) == BookOf(s);
    MulMonotone(s.peakEmissions, t.peakEmissions, s.lastCheckpointEpoch - s.createdEpoch);
  }

  lemma StakersKeepBacked(s: State, ix: Instruction)
    requires Backed(s) && Accepts(s, ix)
    requires ix.DepositLp? || ix.WithdrawLp? || ix.ClaimRewards? || ix.ForceWithdrawLp?
    ensures Backed(Apply(s, ix))
  {
    match ix
    case DepositLp(user, amount, held) =>
      RestakedKeepsBacked(s, user, ShareOf(s.stakes, user).weight + amount, s.totalLp + amount, s.lpVault + amount);
    case WithdrawLp(user, amount) =>
      RestakedKeepsBacked(s, user, ShareOf(s.stakes, user).weight - amount, s.totalLp - amount, s.lpVault - amount);
    case ClaimRewards(user) => ClaimKeepsBacked(s, user);
    case ForceWithdrawLp(user) => ForceWithdrawKeepsBacked(s, user);
  }

  lemma StepKeepsInv(s: State, ix: Instruction)
    requires Inv(s)
    ensures Inv(Step(s, ix))
  {
    if !Accepts(s, ix) {
    } else if ix.CheckpointGauge? {
      CheckpointKeepsInv(s, ix.slot);
    } else if ix.CheckpointOtherGauge? {
      AdvancedKeepsInv(s, ix.slot);
    } else if ix.SetGaugeWeight? || ix.SetEpochEmissions? || ix.SetRewardsVault? {
      ConfigKeepsInv(s, ix);
    } else {
      StakersKeepBacked(s, ix);
      StakersKeepOnSchedule(s, ix);
    }
  }

  /** Every reachable state is backed and on schedule. */
  lemma {:induction false} RunKeepsInv(s: State, ixs: seq<Instruction>)
    requires Inv(s)
    ensures Inv(Run(s, ixs))
    decreases |ixs|
  {
    if ixs == [] {
    } else {
      StepKeepsInv(s, ixs[0]);
      RunKeepsInv(Step(s, ixs[0]), ixs[1..]);
    }
  }
}
