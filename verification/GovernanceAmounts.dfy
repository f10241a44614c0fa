/** What every instruction on locks and on the treasury moves, to the unit: amounts are given by the
    inequalities that define rounding down, and whatever is not named stays as it was. */
module GovernanceAmounts {
  import opened Arithmetic
  import opened MapSums
  import opened Governance
  import opened GovernanceTheorems

  // --- Locks ---------------------------------------------------------------------

  /** The veRISE of a lock: its RISE for the part of four years that it lasts. */
  ghost predicate IsVerise(verise: int, rise: nat, slots: nat) { IsFloor(verise, rise * slots, 4 * 78_840_000) }

  /** A lock takes its RISE, is weighed for its time, starts at the current index and mints its NFT to
      the owner. */
  lemma LockRecords(s: State, owner: Id, lock: Id, amount: u64, slots: u64, held: u64, slot: u64, verise: nat)
    requires Accepts(s, LockRise(owner, lock, amount, slots, held, slot)) && IsVerise(verise, amount, slots)
    ensures Apply(s, LockRise(owner, lock, amount, slots, held, slot)) ==
      s.(locks := s.locks[lock := Lock(owner, amount, verise, slot, slot + slots, s.revenueIndex, 0)],
         holders := s.holders[lock := owner], totalVerise := s.totalVerise + verise, lockCount := s.lockCount + 1,
         riseVault := s.riseVault + amount)
  {
    FloorUnique(verise, amount * slots, MAX_LOCK_SLOTS);
  }

  /** A lock lasts between the configured bounds and is worth at least one unit of veRISE. */
  lemma LockIsAcceptedIff(s: State, owner: Id, lock: Id, amount: u64, slots: u64, held: u64, slot: u64, verise: nat)
    requires IsVerise(verise, amount, slots)
    ensures Accepts(s, LockRise(owner, lock, amount, slots, held, slot)) <==>
      && lock !in s.locks && 0 < amount <= held && s.minLock <= slots <= s.maxLock && 0 < verise < U64
      && s.riseVault + amount < U64 && s.lockCount + 1 < U64 && slot + slots < U64 && s.totalVerise + verise < U128
  {
    FloorUnique(verise, amount * slots, MAX_LOCK_SLOTS);
  }

  /** An extension weighs the lock for the time it then has left, from now on; what it may claim for the
      past is weighed anew with it, as the index of the lock stays where it was. */
  lemma ExtensionReweighs(s: State, lock: Id, more: u64, slot: u64, verise: nat)
    requires Counted(s) && Accepts(s, ExtendLock(lock, more, slot))
    requires slot <= s.locks[lock].end
    requires IsVerise(verise, s.locks[lock].rise, s.locks[lock].end + more - slot)
    ensures var l := s.locks[lock];
      && l.verise <= s.totalVerise
      && Apply(s, ExtendLock(lock, more, slot)) ==
           s.(locks := s.locks[lock := Lock(l.owner, l.rise, verise, slot, l.end + more, l.lastIndex, l.claimed)],
              totalVerise := s.totalVerise - l.verise + verise)
  {
    var l := s.locks[lock];
    FloorUnique(verise, l.rise * (l.end + more - slot), MAX_LOCK_SLOTS);
    LockIsCounted(s, lock);
  }

  /** Only a live lock is extended, by some time, to at most the configured maximum from now. */
  lemma ExtensionIsAcceptedIff(s: State, lock: Id, more: u64, slot: u64, verise: nat)
    requires Counted(s) && lock in s.locks && slot <= s.locks[lock].end
    requires IsVerise(verise, s.locks[lock].rise, s.locks[lock].end + more - slot)
    ensures var l := s.locks[lock];
      Accepts(s, ExtendLock(lock, more, slot)) <==>
        && 0 < more && slot < l.end && l.end + more < U64 && l.end + more - slot <= s.maxLock && verise < U64
        && s.totalVerise - l.verise + verise < U128
  {
    var l := s.locks[lock];
    FloorUnique(verise, l.rise * (l.end + more - slot), MAX_LOCK_SLOTS);
    LockIsCounted(s, lock);
  }

  /** An unlock returns the RISE, takes the weight off the total, and ends lock and NFT. */
  lemma UnlockReturns(s: State, lock: Id, slot: u64)
    requires Counted(s) && Accepts(s, UnlockRise(lock, slot))
    ensures var l := s.locks[lock];
      && l.rise <= s.riseVault && l.verise <= s.totalVerise
      && Apply(s, UnlockRise(lock, slot)) ==
           s.(locks := s.locks - {lock}, holders := s.holders - {lock}, riseVault := s.riseVault - l.rise,
              totalVerise := s.totalVerise - l.verise)
  {
    LockIsCounted(s, lock);
  }

  // --- Revenue --------------------------------------------------------------------------

  /** What a lock has due: its weight times what the index rose since its last claim, with twelve decimals. */
  ghost predicate IsDue(due: int, l: Lock, index: nat) {
    IsFloor(due, (index - l.lastIndex) * l.verise, 1_000_000_000_000)
  }

  /** A claim pays exactly that, and settles the lock to the current index. */
  lemma ClaimPays(s: State, lock: Id, slot: u64, due: nat)
    requires Counted(s) && Solvent(s) && Accepts(s, ClaimRevenueShare(lock, slot))
    requires IsDue(due, s.locks[lock], s.revenueIndex)
    ensures var l := s.locks[lock];
      && due <= s.veriseVault
      && Apply(s, ClaimRevenueShare(lock, slot)) ==
           s.(locks := s.locks[lock := l.(lastIndex := s.revenueIndex, claimed := l.claimed + due)],
              veriseVault := s.veriseVault - due, claimed := s.claimed + due)
  {
    DueIsFunded(s, lock);
    FloorUnique(due, DueAt(s, lock), INDEX_SCALE);
  }

  /** A live lock is refused a claim only if nothing is due, or for an integer width. */
  lemma ClaimIsAcceptedIff(s: State, lock: Id, slot: u64, due: nat)
    requires Counted(s) && Solvent(s) && lock in s.locks && IsDue(due, s.locks[lock], s.revenueIndex)
    ensures var l := s.locks[lock];
      Accepts(s, ClaimRevenueShare(lock, slot)) <==>
        slot < l.end && 0 < due && (s.revenueIndex - l.lastIndex) * l.verise < U128 && l.claimed + due < U64
  {
    ClaimsAreFunded(s, lock, slot);
    FloorUnique(due, DueAt(s, lock), INDEX_SCALE);
  }

  /** The treasury after revenue came in: both vaults with their counters, and the index by its part per
      unit of veRISE. */
  ghost predicate IsDistributed(s: State, t: State, verise: nat, toReserve: nat) {
    && t == s.(revenueIndex := t.revenueIndex, totalDistributed := s.totalDistributed + verise,
               veriseVault := s.veriseVault + verise, reserve := s.reserve + toReserve,
               reserveVault := s.reserveVault + toReserve, lastCollection := t.lastCollection)
    && (s.totalVerise == 0 ==> t.revenueIndex == s.revenueIndex)
    && (0 < s.totalVerise ==> IsFloor(t.revenueIndex - s.revenueIndex, verise * 1_000_000_000_000, s.totalVerise))
  }

  lemma DistributedIs(s: State, verise: nat, toReserve: nat, epoch: nat)
    ensures IsDistributed(s, Distributed(s, verise, toReserve), verise, toReserve)
    ensures IsDistributed(s, Distributed(s, verise, toReserve).(lastCollection := epoch), verise, toReserve)
  {
    if 0 < s.totalVerise { FloorIs(verise * INDEX_SCALE, s.totalVerise); }
  }

  /** Registered revenue is distributed so, and takes no collection epoch. */
  lemma DistributionRaises(s: State, verise: u64, toReserve: u64)
    requires Accepts(s, Distribute(verise, toReserve))
    ensures var t := Apply(s, Distribute(verise, toReserve));
      IsDistributed(s, t, verise, toReserve) && t.lastCollection == s.lastCollection
  {
    DistributedIs(s, verise, toReserve, 0);
  }

  /** Spending takes the lamports, and no rent, out of vault and counter alike. */
  lemma SpendingLowers(s: State, lamports: u64, rent: u64)
    requires ReserveKept(s)
    ensures Accepts(s, SpendReserve(lamports, rent)) <==> 0 < lamports && lamports + rent <= s.reserveVault
    ensures Accepts(s, SpendReserve(lamports, rent)) ==>
      Apply(s, SpendReserve(lamports, rent)) ==
        s.(reserve := s.reserve - lamports, reserveVault := s.reserveVault - lamports)
  {
  }

  /** The weight of a lock falls in proportion to the time it has left, and is never below one unit
      before the end. */
  lemma WeightIsShare(l: Lock, slot: nat, share: nat)
    requires l.start <= slot < l.end && IsFloor(share, l.verise * (l.end - slot), l.end - l.start)
    ensures CurrentVerise(l, slot) == if share == 0 then 1 else share
  {
    FloorUnique(share, l.verise * (l.end - slot), l.end - l.start);
  }
}
