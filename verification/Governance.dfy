/** The rules of veRISE locks (rise-governance) and of the revenue index they are paid from
    (`ProtocolTreasury` in rise-staking), as a state machine over instructions. */
module Governance {
  import opened Arithmetic
  import opened MapSums

  const INDEX_SCALE: nat := 1_000_000_000_000
  const MIN_LOCK_SLOTS: nat := 604_800
  const MAX_LOCK_SLOTS: nat := 4 * 78_840_000

  datatype Lock = Lock(owner: Id, rise: nat, verise: nat, start: nat, end: nat, lastIndex: nat, claimed: nat)

  datatype State = State(
    // GovernanceConfig and VeLock accounts
    totalVerise: nat, minLock: nat, maxLock: nat, lockCount: nat, locks: map<Id, Lock>,
    // who holds the NFT of a lock
    holders: map<Id, Id>,
    // ProtocolTreasury
    revenueIndex: nat, totalDistributed: nat, reserve: nat,
    teamBps: nat, veriseBps: nat, lastCollection: nat,
    // vaults
    riseVault: nat, veriseVault: nat, reserveVault: nat,
    // history
    claimed: nat)

  /** `Distribute` is revenue that was transferred into the two treasury vaults and is registered:
      the end of `collect_fees` and all of `register_external_revenue`. The NFT of a lock is an
      ordinary token: whoever holds it may give it away or burn it. */
  datatype Instruction =
    | LockRise(owner: Id, lock: Id, amount: u64, slots: u64, held: u64, slot: u64)
    | ExtendLock(lock: Id, more: u64, slot: u64)
    | UnlockRise(lock: Id, slot: u64)
    | ClaimRevenueShare(lock: Id, slot: u64)
    | TransferNft(lock: Id, to: Id)
    | BurnNft(lock: Id)
    | Distribute(verise: u64, toReserve: u64)
    | SpendReserve(lamports: u64, rent: u64)

  ghost const VeriseOf: Lock -> int := (l: Lock) => l.verise
  ghost const RiseOf: Lock -> int := (l: Lock) => l.rise

  /** What a lock may still claim at an index, scaled. */
  ghost function UnclaimedBy(l: Lock, index: nat): int { l.verise * (index - l.lastIndex) }

  ghost function Unclaimed(index: nat): Lock -> int { (l: Lock) => UnclaimedBy(l, index) }

  ghost function Liability(s: State): int {
    INDEX_SCALE * s.claimed + Sum(s.locks, Unclaimed(s.revenueIndex))
  }

  // --- Invariants -------------------------------------------------------------

  ghost predicate Sane(l: Lock, index: nat) {
    l.lastIndex <= index && l.start < l.end && l.verise < U64 && l.claimed < U64
  }

  /** Holds in every run: the total is the sum of the locks, and their RISE is in the vault. */
  ghost predicate Counted(s: State) {
    && s.totalVerise == Sum(s.locks, VeriseOf)
    && Sum(s.locks, RiseOf) <= s.riseVault
    && (forall k :: k in s.locks ==> Sane(s.locks[k], s.revenueIndex))
    && (forall k :: k in s.holders ==> k in s.locks)
    && 0 < s.minLock
    && s.totalDistributed <= s.veriseVault + s.claimed
    && s.veriseVault < U64 && s.reserveVault < U64
  }

  /** Claims made and claims open are covered by what was distributed, without rounding slack. */
  ghost predicate Solvent(s: State) { Liability(s) <= INDEX_SCALE * s.totalDistributed }

  /** After `initialize_governance` and `initialize_treasury`. */
  function Genesis(teamBps: nat, veriseBps: nat, epoch: nat): State {
    State(0, MIN_LOCK_SLOTS, MAX_LOCK_SLOTS, 0, map[], map[], 0, 0, 0, teamBps, veriseBps, epoch, 0, 0, 0, 0)
  }

  // --- When an instruction goes through, and what it does ----------------------

  function CalculateVerise(rise: nat, slots: nat): nat { rise * slots / MAX_LOCK_SLOTS }

  /** The decayed voting weight, at least one unit until the end. */
  function CurrentVerise(l: Lock, slot: nat): nat
    requires l.start < l.end
  {
    if l.end <= slot then 0 else Max(Part(l.verise, l.end - slot, l.end - l.start), 1)
  }

  predicate CanLock(s: State, lock: Id, amount: nat, slots: nat, held: nat, slot: nat) {
    var verise := CalculateVerise(amount, slots);
    && lock !in s.locks && 0 < amount <= held && s.minLock <= slots <= s.maxLock
    && 0 < verise < U64 && s.riseVault + amount < U64
    && s.lockCount + 1 < U64 && slot + slots < U64 && s.totalVerise + verise < U128
  }

  /** Takes the RISE, mints one NFT to the owner and opens the lock at the current index. */
  function Locked(s: State, owner: Id, lock: Id, amount: nat, slots: nat, slot: nat): State {
    var verise := CalculateVerise(amount, slots);
    s.(locks := s.locks[lock := Lock(owner, amount, verise, slot, slot + slots, s.revenueIndex, 0)],
       holders := s.holders[lock := owner],
       totalVerise := s.totalVerise + verise, lockCount := s.lockCount + 1, riseVault := s.riseVault + amount)
  }

  function ExtendedVerise(l: Lock, more: nat, slot: nat): nat
    requires slot <= l.end
  {
    CalculateVerise(l.rise, l.end + more - slot)
  }

  predicate CanExtend(s: State, lock: Id, more: nat, slot: nat) {
    && lock in s.locks && 0 < more && slot < s.locks[lock].end
    && s.locks[lock].end + more < U64 && s.locks[lock].end + more - slot <= s.maxLock
    && ExtendedVerise(s.locks[lock], more, slot) < U64
    && s.locks[lock].verise <= s.totalVerise
    && s.totalVerise - s.locks[lock].verise + ExtendedVerise(s.locks[lock], more, slot) < U128
  }

  /** Re-weights the lock for its new remaining time, and leaves its revenue index alone. */
  function Extended(s: State, lock: Id, more: nat, slot: nat): State
    requires lock in s.locks && slot <= s.locks[lock].end && s.locks[lock].verise <= s.totalVerise
  {
    var l := s.locks[lock];
    var verise := ExtendedVerise(l, more, slot);
    s.(locks := s.locks[lock := l.(verise := verise, start := slot, end := l.end + more)],
       totalVerise := s.totalVerise - l.verise + verise)
  }

  /** Only the owner may unlock, and only with the lock's NFT in hand: unlocking burns it. */
  predicate HoldsNft(s: State, lock: Id)
    requires lock in s.locks
  {
    lock in s.holders && s.holders[lock] == s.locks[lock].owner
  }

  predicate CanUnlock(s: State, lock: Id, slot: nat) {
    && lock in s.locks && HoldsNft(s, lock) && s.locks[lock].end <= slot
    && s.locks[lock].rise <= s.riseVault && s.locks[lock].verise <= s.totalVerise
  }

  function Unlocked(s: State, lock: Id): State
    requires lock in s.locks && s.locks[lock].rise <= s.riseVault && s.locks[lock].verise <= s.totalVerise
  {
    s.(locks := s.locks - {lock}, holders := s.holders - {lock}, totalVerise := s.totalVerise - s.locks[lock].verise,
       riseVault := s.riseVault - s.locks[lock].rise)
  }

  /** Revenue due for an index difference, scaled. */
  function Due(delta: nat, verise: nat): nat { delta * verise }

  function DueAt(s: State, lock: Id): nat
    requires lock in s.locks && s.locks[lock].lastIndex <= s.revenueIndex
  {
    Due(s.revenueIndex - s.locks[lock].lastIndex, s.locks[lock].verise)
  }

  function Claimable(s: State, lock: Id): nat
    requires lock in s.locks && s.locks[lock].lastIndex <= s.revenueIndex
  {
    Truncate64(DueAt(s, lock) / INDEX_SCALE)
  }

  predicate CanClaim(s: State, lock: Id, slot: nat) {
    && lock in s.locks && s.locks[lock].lastIndex <= s.revenueIndex && slot < s.locks[lock].end
    && DueAt(s, lock) < U128
    && 0 < Claimable(s, lock) <= s.veriseVault
    && s.locks[lock].claimed + Claimable(s, lock) < U64
  }

  function Claimed(s: State, lock: Id): State
    requires lock in s.locks && s.locks[lock].lastIndex <= s.revenueIndex && Claimable(s, lock) <= s.veriseVault
  {
    var l := s.locks[lock];
    s.(locks := s.locks[lock := l.(lastIndex := s.revenueIndex, claimed := l.claimed + Claimable(s, lock))],
       veriseVault := s.veriseVault - Claimable(s, lock), claimed := s.claimed + Claimable(s, lock))
  }

  function IndexIncrease(s: State, verise: nat): nat {
    if s.totalVerise == 0 then 0 else verise * INDEX_SCALE / s.totalVerise
  }

  predicate CanDistribute(s: State, verise: nat, toReserve: nat) {
    && s.veriseVault + verise < U64 && s.reserveVault + toReserve < U64
    && s.revenueIndex + IndexIncrease(s, verise) < U128
    && s.totalDistributed + verise < U128 && s.reserve + toReserve < U128
  }

  function Distributed(s: State, verise: nat, toReserve: nat): State {
    s.(revenueIndex := s.revenueIndex + IndexIncrease(s, verise), totalDistributed := s.totalDistributed + verise,
       veriseVault := s.veriseVault + verise,
       reserve := s.reserve + toReserve, reserveVault := s.reserveVault + toReserve)
  }

  predicate Accepts(s: State, ix: Instruction) {
    match ix
    case LockRise(_, lock, amount, slots, held, slot) => CanLock(s, lock, amount, slots, held, slot)
    case ExtendLock(lock, more, slot) => CanExtend(s, lock, more, slot)
    case UnlockRise(lock, slot) => CanUnlock(s, lock, slot)
    case ClaimRevenueShare(lock, slot) => CanClaim(s, lock, slot)
    case TransferNft(lock, _) => lock in s.holders
    case BurnNft(lock) => lock in s.holders
    case Distribute(verise, toReserve) => CanDistribute(s, verise, toReserve)
    case SpendReserve(lamports, rent) => 0 < lamports && lamports + rent <= s.reserveVault
  }

  function Apply(s: State, ix: Instruction): State
    requires Accepts(s, ix)
  {
    match ix
    case LockRise(owner, lock, amount, slots, _, slot) => Locked(s, owner, lock, amount, slots, slot)
    case ExtendLock(lock, more, slot) => Extended(s, lock, more, slot)
    case UnlockRise(lock, _) => Unlocked(s, lock)
    case ClaimRevenueShare(lock, _) => Claimed(s, lock)
    case TransferNft(lock, to) => s.(holders := s.holders[lock := to])
    case BurnNft(lock) => s.(holders := s.holders - {lock})
    case Distribute(verise, toReserve) => Distributed(s, verise, toReserve)
    case SpendReserve(lamports, _) =>
      s.(reserveVault := s.reserveVault - lamports, reserve := SaturatingSub(s.reserve, lamports))
  }

  function Step(s: State, ix: Instruction): State {
    if Accepts(s, ix) then Apply(s, ix) else s
  }

  function Run(s: State, ixs: seq<Instruction>): State
    decreases |ixs|
  {
    if ixs == [] then s else Run(Step(s, ixs[0]), ixs[1..])
  }

  // --- What every instruction keeps -------------------------------------------

  /** A lock's part of the two totals. */
  lemma LockIsCounted(s: State, lock: Id)
    requires Counted(s) && lock in s.locks
    ensures s.locks[lock].verise <= s.totalVerise && s.locks[lock].rise <= s.riseVault
  {
    SumAtLeast(s.locks, VeriseOf, lock);
    SumAtLeast(s.locks, RiseOf, lock);
  }

  lemma LocksKeepCounted(s: State, ix: Instruction)
    requires Counted(s) && Accepts(s, ix)
    requires ix.LockRise? || ix.ExtendLock? || ix.ClaimRevenueShare?
    ensures Counted(Apply(s, ix))
  {
    var t := Apply(s, ix);
    SumPut(s.locks, VeriseOf, ix.lock, t.locks[ix.lock]);
    SumPut(s.locks, RiseOf, ix.lock, t.locks[ix.lock]);
  }

  lemma UnlockKeepsCounted(s: State, lock: Id)
    requires Counted(s) && lock in s.locks
    ensures s.locks[lock].verise <= s.totalVerise && s.locks[lock].rise <= s.riseVault
    ensures Counted(Unlocked(s, lock))
  {
    LockIsCounted(s, lock);
    SumDrop(s.locks, VeriseOf, lock);
    SumDrop(s.locks, RiseOf, lock);
  }

  lemma StepKeepsCounted(s: State, ix: Instruction)
    requires Counted(s)
    ensures Counted(Step(s, ix))
  {
    if Accepts(s, ix) {
      if ix.UnlockRise? {
        UnlockKeepsCounted(s, ix.lock);
      } else if ix.LockRise? || ix.ExtendLock? || ix.ClaimRevenueShare? {
        LocksKeepCounted(s, ix);
      }
    }
  }

  /** Account widths: what the treasury's and the locks' fields can hold. */
  ghost predicate Sized(s: State) {
    && s.revenueIndex < U128 && s.totalDistributed < U128 && s.reserve < U128
    && s.riseVault < U64 && s.lockCount < U64
    && (forall k :: k in s.locks ==> s.locks[k].rise < U64 && s.locks[k].end < U64)
  }

  lemma StepKeepsSized(s: State, ix: Instruction)
    requires Counted(s) && Sized(s)
    ensures Sized(Step(s, ix))
  {
  }

  /** The reserve's counter and its vault. */
  predicate ReserveKept(s: State) { s.reserve == s.reserveVault }

  /** The counter follows the vault through every instruction, so the saturating subtraction of a
      buyback never saturates. */
  lemma StepKeepsReserve(s: State, ix: Instruction)
    requires ReserveKept(s)
    ensures ReserveKept(Step(s, ix))
    ensures ix.SpendReserve? && Accepts(s, ix) ==> Step(s, ix).reserve == s.reserve - ix.lamports
  {
  }

  // --- Solvency ---------------------------------------------------------------

  /** Extending changes what is owed by exactly the change of weight times the index the lock has
      not settled yet. */
  lemma ExtendChangesLiability(s: State, lock: Id, more: nat, slot: nat)
    requires Counted(s) && CanExtend(s, lock, more, slot)
    ensures var l := s.locks[lock];
      Liability(Extended(s, lock, more, slot)) - Liability(s)
        == (ExtendedVerise(l, more, slot) - l.verise) * (s.revenueIndex - l.lastIndex)
  {
    var l, m := s.locks[lock], Extended(s, lock, more, slot).locks[lock];
    SumPut(s.locks, Unclaimed(s.revenueIndex), lock, m);
    Difference(m.verise, l.verise, s.revenueIndex - l.lastIndex);
  }

  lemma Difference(a: nat, b: nat, c: nat)
    ensures a * c - b * c == (a - b) * c
  {
  }

  /** Settled to the current index, or not gaining weight. */
  predicate Harmless(s: State, ix: Instruction) {
    ix.ExtendLock? && CanExtend(s, ix.lock, ix.more, ix.slot) ==>
      var l := s.locks[ix.lock];
      l.lastIndex == s.revenueIndex || ExtendedVerise(l, ix.more, ix.slot) <= l.verise
  }

  /** An extension keeps the liability from growing if and only if the lock is settled to the
      current index or does not gain weight. */
  lemma ExtendKeepsLiabilityIff(s: State, ix: Instruction)
    requires Counted(s) && ix.ExtendLock? && Accepts(s, ix)
    ensures Liability(Apply(s, ix)) <= Liability(s) <==> Harmless(s, ix)
  {
    var l := s.locks[ix.lock];
    var gain, delta := ExtendedVerise(l, ix.more, ix.slot) - l.verise, s.revenueIndex - l.lastIndex;
    ExtendChangesLiability(s, ix.lock, ix.more, ix.slot);
    if 0 < gain && 0 < delta {
      MulMonotone(1, gain, delta);
    } else if gain <= 0 {
      MulMonotone(gain, 0, delta);
    }
  }

  lemma LockKeepsLiability(s: State, owner: Id, lock: Id, amount: nat, slots: nat, slot: nat)
    requires lock !in s.locks
    ensures Liability(Locked(s, owner, lock, amount, slots, slot)) == Liability(s)
  {
    SumPut(s.locks, Unclaimed(s.revenueIndex), lock, Locked(s, owner, lock, amount, slots, slot).locks[lock]);
  }

  lemma DueIsUnclaimed(l: Lock, index: nat)
    requires l.lastIndex <= index
    ensures Due(index - l.lastIndex, l.verise) == UnclaimedBy(l, index)
  {
  }

  lemma ClaimableIsUnclaimed(s: State, lock: Id)
    requires lock in s.locks && s.locks[lock].lastIndex <= s.revenueIndex
    ensures INDEX_SCALE * Claimable(s, lock) <= UnclaimedBy(s.locks[lock], s.revenueIndex)
    ensures Claimable(s, lock) < U64
  {
    DueIsUnclaimed(s.locks[lock], s.revenueIndex);
    assert Claimable(s, lock) <= DueAt(s, lock) / INDEX_SCALE;
  }

  /** A claim pays out no more than it takes off the lock: all rounding stays in the vault. */
  lemma ClaimKeepsLiability(s: State, lock: Id)
    requires lock in s.locks && s.locks[lock].lastIndex <= s.revenueIndex && Claimable(s, lock) <= s.veriseVault
    ensures Liability(Claimed(s, lock)) <= Liability(s)
  {
    ClaimableIsUnclaimed(s, lock);
    var t := Claimed(s, lock);
    assert UnclaimedBy(t.locks[lock], t.revenueIndex) == 0;
    SumPut(s.locks, Unclaimed(s.revenueIndex), lock, t.locks[lock]);
  }

  lemma UnclaimedIsOwed(l: Lock, index: nat)
    requires Sane(l, index)
    ensures 0 <= UnclaimedBy(l, index)
  {
    MulMonotone(0, l.verise, index - l.lastIndex);
  }

  lemma UnlockKeepsLiability(s: State, lock: Id)
    requires Counted(s) && lock in s.locks
    ensures s.locks[lock].verise <= s.totalVerise && s.locks[lock].rise <= s.riseVault
    ensures Liability(Unlocked(s, lock)) <= Liability(s)
  {
    LockIsCounted(s, lock);
    UnclaimedIsOwed(s.locks[lock], s.revenueIndex);
    SumDrop(s.locks, Unclaimed(s.revenueIndex), lock);
  }

  /** Distributing over the summed weights promises at most what was distributed. */
  lemma DistributeKeepsSolvent(s: State, verise: nat, toReserve: nat)
    requires Counted(s) && Solvent(s)
    ensures Solvent(Distributed(s, verise, toReserve))
  {
    var inc := IndexIncrease(s, verise);
    var index' := s.revenueIndex + inc;
    if 0 < s.totalVerise { FloorBounds(verise * INDEX_SCALE, s.totalVerise); }
    forall k | k in s.locks
      ensures Unclaimed(index')(s.locks[k]) == Unclaimed(s.revenueIndex)(s.locks[k]) + inc * VeriseOf(s.locks[k])
    {
      var l := s.locks[k];
      Difference(index' - l.lastIndex, s.revenueIndex - l.lastIndex, l.verise);
    }
    SumLinear(s.locks, Unclaimed(index'), Unclaimed(s.revenueIndex), VeriseOf, inc);
  }

  lemma StepKeepsSolvent(s: State, ix: Instruction)
    requires Counted(s) && Solvent(s) && Harmless(s, ix)
    ensures Solvent(Step(s, ix))
  {
    if Accepts(s, ix) {
      match ix
      case LockRise(owner, lock, amount, slots, _, slot) => LockKeepsLiability(s, owner, lock, amount, slots, slot);
      case ExtendLock(_, _, _) => ExtendKeepsLiabilityIff(s, ix);
      case UnlockRise(lock, _) => UnlockKeepsLiability(s, lock);
      case ClaimRevenueShare(lock, _) => ClaimKeepsLiability(s, lock);
      case Distribute(verise, toReserve) => DistributeKeepsSolvent(s, verise, toReserve);
      case SpendReserve(_, _) =>
      case TransferNft(_, _) =>
      case BurnNft(_) =>
    }
  }
}
