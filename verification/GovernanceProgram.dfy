/** The handlers of rise-governance, and the treasury part of rise-staking, statement by statement.

    A handler works on copies of the accounts (its out-parameters); the instruction writes them
    back when the handler ends well. */
module GovernanceProgram {
  import opened Arithmetic
  import opened MapSums
  import opened Governance

  const NO_LOCK := Lock(0, 0, 0, 0, 0, 0, 0)

  /** A weight's part for the time left: rounded down, but never to zero. */
  predicate IsShare(weight: nat, verise: nat, left: nat, total: nat) {
    verise * left < (weight + 1) * total && (1 < weight ==> weight * total <= verise * left)
  }

  function SaturatingShare(verise: nat, left: nat, total: nat): nat
    requires 0 < total
  {
    SaturatingMul128(verise, left) / total
  }

  /** Within the time of a lock its weight does not saturate, and the cast loses nothing. */
  lemma ShareFits(verise: nat, left: nat, total: nat)
    requires left <= total < U64 && 0 < total && verise < U64
    ensures SaturatingShare(verise, left, total) == Part(verise, left, total) <= verise
    ensures IsShare(Max(Part(verise, left, total), 1), verise, left, total)
  {
    MulMonotone(left, U64 - 1, verise);
    ShareAtMost(verise, left, total);
    FloorBounds(verise * left, total);
    var part := Part(verise, left, total);
    assert (part + 1) * total == part * total + total;
    if part == 0 {
      MulMonotone(1, 2, total);
    }
  }

  class Program {
    // GovernanceConfig and VeLock accounts
    var totalVerise: nat
    var minLock: nat
    var maxLock: nat
    var lockCount: nat
    var locks: map<Id, Lock>
    // who holds the NFT of a lock
    var holders: map<Id, Id>
    // ProtocolTreasury
    var revenueIndex: nat
    var totalDistributed: nat
    var reserve: nat
    var teamBps: nat
    var veriseBps: nat
    var lastCollection: nat
    // vaults
    var riseVault: nat
    var veriseVault: nat
    var reserveVault: nat
    // history
    ghost var claimed: nat

    ghost function Accounts(): State reads this {
      State(totalVerise, minLock, maxLock, lockCount, locks, holders, revenueIndex, totalDistributed, reserve,
            teamBps, veriseBps, lastCollection, riseVault, veriseVault, reserveVault, claimed)
    }

    ghost predicate Valid() reads this { Counted(Accounts()) }

    constructor (team: u64, verise: u64, epoch: u64)
      ensures Valid() && Solvent(Accounts()) && Accounts() == Genesis(team, verise, epoch)
    {
      totalVerise, minLock, maxLock, lockCount, locks, holders := 0, MIN_LOCK_SLOTS, MAX_LOCK_SLOTS, 0, map[], map[];
      revenueIndex, totalDistributed, reserve := 0, 0, 0;
      teamBps, veriseBps, lastCollection := team, verise, epoch;
      riseVault, veriseVault, reserveVault, claimed := 0, 0, 0, 0;
    }

    /** `GovernanceConfig::calculate_verise`. */
    method Verise(rise: nat, slots: nat) returns (r: Outcome, verise: nat)
      requires rise < U64 && slots < U64
      ensures r.Done? <==> CalculateVerise(rise, slots) < U64
      ensures r.Done? ==> verise == CalculateVerise(rise, slots)
    {
      verise := 0;
      MulMonotone(rise, U64 - 1, slots);
      MulMonotone(slots, U64 - 1, U64 - 1);
      var product :- Mul128(rise, slots);
      verise :- Narrow64(product / MAX_LOCK_SLOTS);
      r := Done;
    }

    /** `VeLock::current_verise`: positive exactly until the end; from the start on at most the lock's
        veRISE, and its remaining share rounded down unless that is zero. */
    method Weight(l: Lock, slot: nat) returns (weight: nat)
      requires l.start < l.end < U64 && l.verise < U64
      ensures 0 < weight <==> slot < l.end
      ensures l.start <= slot < l.end ==>
        weight <= Max(l.verise, 1) && IsShare(weight, l.verise, l.end - slot, l.end - l.start)
      ensures l.start <= slot ==> weight == CurrentVerise(l, slot)
    {
      if slot >= l.end { return 0; }
      var remaining, total := l.end - slot, l.end - l.start;
      if remaining <= total { ShareFits(l.verise, remaining, total); }
      weight := Max(Truncate64(SaturatingShare(l.verise, remaining, total)), 1);
    }

    method LockHandler(owner: Id, lock: Id, amount: u64, slots: u64, held: u64, slot: u64)
      returns (r: Outcome, created: Lock, count: nat, total: nat)
      ensures r.Done? <==> CanLock(Accounts(), lock, amount, slots, held, slot)
      ensures r.Done? ==>
        && count == lockCount + 1 && total == totalVerise + CalculateVerise(amount, slots)
        && created == Lock(owner, amount, CalculateVerise(amount, slots), slot, slot + slots, revenueIndex, 0)
      ensures lock !in locks && 0 < amount && slots < minLock ==> r == Failed(LockTooShort)
      ensures lock !in locks && 0 < amount && minLock <= slots && maxLock < slots ==> r == Failed(LockTooLong)
    {
      created, count, total := NO_LOCK, 0, 0;
      :- Require(lock !in locks, AccountInUse);
      :- Require(amount > 0, ZeroAmount);
      :- Require(slots >= minLock, LockTooShort);
      :- Require(slots <= maxLock, LockTooLong);
      var verise;
      r, verise := Verise(amount, slots);
      if r.Failed? { return; }
      :- Require(verise > 0, ZeroAmount);
      :- Require(amount <= held && riseVault + amount < U64, TransferFailed);
      count :- Add64(lockCount, 1);
      var end :- Add64(slot, slots);
      created := Lock(owner, amount, verise, slot, end, revenueIndex, 0);
      total :- Add128(totalVerise, verise);
      r := Done;
    }

    method LockRise(owner: Id, lock: Id, amount: u64, slots: u64, held: u64, slot: u64) returns (r: Outcome)
      modifies this
      ensures r.Done? <==> old(CanLock(Accounts(), lock, amount, slots, held, slot))
      ensures Accounts() == old(if r.Done? then Locked(Accounts(), owner, lock, amount, slots, slot) else Accounts())
    {
      var created, count, total;
      r, created, count, total := LockHandler(owner, lock, amount, slots, held, slot);
      if r.Done? {
        locks, holders := locks[lock := created], holders[lock := owner];
        lockCount, totalVerise, riseVault := count, total, riseVault + amount;
      }
    }

    method ExtendHandler(lock: Id, more: u64, slot: u64) returns (r: Outcome, extended: Lock, total: nat)
      requires lock in locks ==> locks[lock].verise <= totalVerise && locks[lock].rise < U64
      ensures r.Done? <==> CanExtend(Accounts(), lock, more, slot)
      ensures r.Done? ==>
        var verise := ExtendedVerise(locks[lock], more, slot);
        && total == totalVerise - locks[lock].verise + verise
        && extended == locks[lock].(verise := verise, start := slot, end := locks[lock].end + more)
      ensures lock in locks && 0 < more && locks[lock].end <= slot ==> r == Failed(LockExpired)
    {
      extended, total := NO_LOCK, 0;
      :- Require(lock in locks, AccountMissing);
      :- Require(more > 0, ZeroAmount);
      :- Require(slot < locks[lock].end, LockExpired);
      var end :- Add64(locks[lock].end, more);
      var slots :- CheckedSub(end, slot);
      :- Require(slots <= maxLock, LockTooLong);
      var verise;
      r, verise := Verise(locks[lock].rise, slots);
      if r.Failed? { return; }
      total :- Add128(SaturatingSub(totalVerise, locks[lock].verise), verise);
      extended := locks[lock].(end := end, start := slot, verise := verise);
      r := Done;
    }

    method ExtendLock(lock: Id, more: u64, slot: u64) returns (r: Outcome)
      requires lock in locks ==> locks[lock].verise <= totalVerise && locks[lock].rise < U64
      modifies this
      ensures r.Done? <==> old(CanExtend(Accounts(), lock, more, slot))
      ensures Accounts() == old(if r.Done? then Extended(Accounts(), lock, more, slot) else Accounts())
    {
      var extended, total;
      r, extended, total := ExtendHandler(lock, more, slot);
      if r.Done? {
        locks, totalVerise := locks[lock := extended], total;
      }
    }

    method UnlockRise(lock: Id, slot: u64) returns (r: Outcome)
      requires lock in locks ==> locks[lock].verise <= totalVerise
      modifies this
      ensures r.Done? <==> old(CanUnlock(Accounts(), lock, slot))
      ensures Accounts() == old(if r.Done? then Unlocked(Accounts(), lock) else Accounts())
      ensures old(lock in locks && !HoldsNft(Accounts(), lock)) ==> r == Failed(ZeroAmount)
    {
      r := Done;
      :- Require(lock in locks, AccountMissing);
      :- Require(lock in holders && holders[lock] == locks[lock].owner, ZeroAmount);
      :- Require(slot >= locks[lock].end, LockNotExpired);
      :- Require(locks[lock].rise <= riseVault, TransferFailed);
      riseVault, totalVerise := riseVault - locks[lock].rise, SaturatingSub(totalVerise, locks[lock].verise);
      locks, holders := locks - {lock}, holders - {lock};
    }

    method ClaimHandler(lock: Id, slot: u64) returns (r: Outcome, payout: nat, paidLock: Lock)
      requires lock in locks ==> Sane(locks[lock], revenueIndex) && locks[lock].end < U64
      ensures r.Done? <==> CanClaim(Accounts(), lock, slot)
      ensures r.Done? ==>
        && payout == Claimable(Accounts(), lock)
        && paidLock == locks[lock].(lastIndex := revenueIndex, claimed := locks[lock].claimed + payout)
      ensures lock in locks && locks[lock].end <= slot ==> r == Failed(LockExpired)
    {
      payout, paidLock := 0, NO_LOCK;
      :- Require(lock in locks, AccountMissing);
      var weight := Weight(locks[lock], slot);
      :- Require(weight > 0, LockExpired);
      var delta := SaturatingSub(revenueIndex, locks[lock].lastIndex);
      :- Require(delta > 0, NoRewardsToClaim);
      var product :- Narrow128(Due(delta, locks[lock].verise));
      payout := Truncate64(product / INDEX_SCALE);
      :- Require(payout > 0, NoRewardsToClaim);
      :- Require(payout <= veriseVault, TransferFailed);
      var sum :- Add64(locks[lock].claimed, payout);
      paidLock := locks[lock].(lastIndex := revenueIndex, claimed := sum);
      r := Done;
    }

    method ClaimRevenueShare(lock: Id, slot: u64) returns (r: Outcome)
      requires lock in locks ==> Sane(locks[lock], revenueIndex) && locks[lock].end < U64
      modifies this
      ensures r.Done? <==> old(CanClaim(Accounts(), lock, slot))
      ensures Accounts() == old(if r.Done? then Claimed(Accounts(), lock) else Accounts())
    {
      var payout, paidLock;
      r, payout, paidLock := ClaimHandler(lock, slot);
      if r.Done? {
        locks, veriseVault, claimed := locks[lock := paidLock], veriseVault - payout, claimed + payout;
      }
    }

    method RegisterHandler(verise: u64, toReserve: u64)
      returns (r: Outcome, index: nat, distributed: nat, kept: nat)
      requires revenueIndex < U128 && totalDistributed < U128 && reserve < U128
      ensures r.Done? <==> revenueIndex + IndexIncrease(Accounts(), verise) < U128
                           && totalDistributed + verise < U128 && reserve + toReserve < U128
      ensures r.Done? ==> index == revenueIndex + IndexIncrease(Accounts(), verise)
                          && distributed == totalDistributed + verise && kept == reserve + toReserve
    {
      index, distributed, kept := revenueIndex, totalDistributed, reserve;
      if verise > 0 {
        if totalVerise > 0 {
          var product :- Mul128(verise, INDEX_SCALE);
          var increment :- CheckedDiv(product, totalVerise);
          index :- Add128(revenueIndex, increment);
        }
        distributed :- Add128(totalDistributed, verise);
      }
      if toReserve > 0 {
        kept :- Add128(reserve, toReserve);
      }
      r := Done;
    }

    /** Two vault transfers, then `register_external_revenue`. */
    method Distribute(verise: u64, toReserve: u64) returns (r: Outcome)
      requires revenueIndex < U128 && totalDistributed < U128 && reserve < U128
      requires veriseVault < U64 && reserveVault < U64
      modifies this
      ensures r.Done? <==> old(CanDistribute(Accounts(), verise, toReserve))
      ensures Accounts() == old(if r.Done? then Distributed(Accounts(), verise, toReserve) else Accounts())
    {
      var index, distributed, kept;
      :- Require(veriseVault + verise < U64 && reserveVault + toReserve < U64, TransferFailed);
      r, index, distributed, kept := RegisterHandler(verise, toReserve);
      if r.Done? {
        revenueIndex, totalDistributed, reserve := index, distributed, kept;
        veriseVault, reserveVault := veriseVault + verise, reserveVault + toReserve;
      }
    }

    /** `withdraw_treasury_for_cdp_buyback`. */
    method SpendReserve(lamports: u64, rent: u64) returns (r: Outcome)
      modifies this
      ensures r.Done? <==> old(Accepts(Accounts(), Instruction.SpendReserve(lamports, rent)))
      ensures Accounts() == old(Step(Accounts(), Instruction.SpendReserve(lamports, rent)))
    {
      r := Done;
      :- Require(lamports > 0, ZeroAmount);
      :- Require(SaturatingSub(reserveVault, rent) >= lamports, InsufficientLiquidity);
      reserveVault, reserve := reserveVault - lamports, SaturatingSub(reserve, lamports);
    }

    /** One transaction: exactly the step the rules allow; the counters keep agreeing with the
        locks, and a harmless step keeps the revenue solvent. */
    method Execute(ix: Instruction) returns (r: Outcome)
      requires Valid() && Sized(Accounts())
      modifies this
      ensures Valid() && Sized(Accounts())
      ensures old(Solvent(Accounts()) && Harmless(Accounts(), ix)) ==> Solvent(Accounts())
      ensures Accounts() == Step(old(Accounts()), ix)
      ensures r.Done? <==> Accepts(old(Accounts()), ix)
    {
      StepKeepsCounted(Accounts(), ix);
      StepKeepsSized(Accounts(), ix);
      if Solvent(Accounts()) && Harmless(Accounts(), ix) { StepKeepsSolvent(Accounts(), ix); }
      if ix.LockRise? || ix.ExtendLock? || ix.UnlockRise? || ix.ClaimRevenueShare? {
        if ix.lock in locks { LockIsCounted(Accounts(), ix.lock); }
      }
      match ix {
        case LockRise(owner, lock, amount, slots, held, slot) => r := LockRise(owner, lock, amount, slots, held, slot);
        case ExtendLock(lock, more, slot) => r := ExtendLock(lock, more, slot);
        case UnlockRise(lock, slot) => r := UnlockRise(lock, slot);
        case ClaimRevenueShare(lock, slot) => r := ClaimRevenueShare(lock, slot);
        case TransferNft(lock, to) => {
          r := Require(lock in holders, AccountMissing);
          if r.Done? { holders := holders[lock := to]; }
        }
        case BurnNft(lock) => {
          r := Require(lock in holders, AccountMissing);
          if r.Done? { holders := holders - {lock}; }
        }
        case Distribute(verise, toReserve) => r := Distribute(verise, toReserve);
        case SpendReserve(lamports, rent) => r := SpendReserve(lamports, rent);
      }
    }
  }
}
