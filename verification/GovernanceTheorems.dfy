/** What veRISE holders can rely on, over whole runs. */
module GovernanceTheorems {
  import opened Arithmetic
  import opened MapSums
  import opened Governance

  /** A run in which every extension is harmless where it happens. */
  predicate Tame(s: State, ixs: seq<Instruction>)
    decreases |ixs|
  {
    ixs == [] || (Harmless(s, ixs[0]) && Tame(Step(s, ixs[0]), ixs[1..]))
  }

  /** The counters agree with the locks in every run, tame or not. */
  lemma {:induction false} RunKeepsCounted(s: State, ixs: seq<Instruction>)
    requires Counted(s)
    ensures Counted(Run(s, ixs))
    decreases |ixs|
  {
    if ixs == [] {
    } else {
      StepKeepsCounted(s, ixs[0]);
      RunKeepsCounted(Step(s, ixs[0]), ixs[1..]);
    }
  }

  lemma {:induction false} RunKeepsSolvent(s: State, ixs: seq<Instruction>)
    requires Counted(s) && Solvent(s) && Tame(s, ixs)
    ensures Solvent(Run(s, ixs))
    decreases |ixs|
  {
    if ixs == [] {
    } else {
      StepKeepsCounted(s, ixs[0]);
      StepKeepsSolvent(s, ixs[0]);
      RunKeepsSolvent(Step(s, ixs[0]), ixs[1..]);
    }
  }

  /** Revenue solvency without any rounding slack: in every tame run from genesis, what was claimed
      and what the locks may still claim is covered by what was distributed. */
  lemma RevenueSolvency(s0: State, ixs: seq<Instruction>)
    requires s0 == Genesis(s0.teamBps, s0.veriseBps, s0.lastCollection) && Tame(s0, ixs)
    ensures var s := Run(s0, ixs);
      && s.totalVerise == Sum(s.locks, VeriseOf)
      && INDEX_SCALE * s.claimed + Sum(s.locks, Unclaimed(s.revenueIndex)) <= INDEX_SCALE * s.totalDistributed
      && (forall k :: k in s.locks ==> 0 <= UnclaimedBy(s.locks[k], s.revenueIndex))
  {
    var s := Run(s0, ixs);
    RunKeepsCounted(s0, ixs);
    RunKeepsSolvent(s0, ixs);
    forall k | k in s.locks ensures 0 <= UnclaimedBy(s.locks[k], s.revenueIndex) {
      UnclaimedIsOwed(s.locks[k], s.revenueIndex);
    }
  }

  /** In a solvent state the vault holds what every lock has due. */
  lemma DueIsFunded(s: State, lock: Id)
    requires Counted(s) && Solvent(s) && lock in s.locks
    ensures s.locks[lock].lastIndex <= s.revenueIndex && DueAt(s, lock) / INDEX_SCALE <= s.veriseVault < U64
  {
    forall k | k in s.locks ensures 0 <= Unclaimed(s.revenueIndex)(s.locks[k]) {
      UnclaimedIsOwed(s.locks[k], s.revenueIndex);
    }
    SumAtLeast(s.locks, Unclaimed(s.revenueIndex), lock);
    DueIsUnclaimed(s.locks[lock], s.revenueIndex);
  }

  /** So a live lock with something to claim is paid, in full, as far as the integer widths go. */
  lemma ClaimsAreFunded(s: State, lock: Id, slot: u64)
    requires Counted(s) && Solvent(s) && lock in s.locks
    ensures s.locks[lock].lastIndex <= s.revenueIndex
    ensures var due := DueAt(s, lock);
      && (Accepts(s, ClaimRevenueShare(lock, slot)) <==>
            slot < s.locks[lock].end && 0 < due / INDEX_SCALE && due < U128
            && s.locks[lock].claimed + due / INDEX_SCALE < U64)
      && (Accepts(s, ClaimRevenueShare(lock, slot)) ==>
            Step(s, ClaimRevenueShare(lock, slot)).veriseVault == s.veriseVault - due / INDEX_SCALE)
  {
    DueIsFunded(s, lock);
  }

  /** An unlock is accepted if and only if the lock has ended and its owner holds its NFT; it returns
      the RISE. */
  lemma ExpiredLockIsReturned(s: State, lock: Id, slot: u64)
    requires Counted(s) && lock in s.locks
    ensures Accepts(s, UnlockRise(lock, slot)) <==> s.locks[lock].end <= slot && HoldsNft(s, lock)
    ensures Accepts(s, UnlockRise(lock, slot)) ==>
      Step(s, UnlockRise(lock, slot)).riseVault == s.riseVault - s.locks[lock].rise
  {
    LockIsCounted(s, lock);
  }

  /** Ends the lock, or moves its NFT. */
  predicate Moves(ix: Instruction, lock: Id) {
    (ix.UnlockRise? || ix.TransferNft? || ix.BurnNft?) && ix.lock == lock
  }

  lemma LockSurvivesStep(s: State, ix: Instruction, lock: Id)
    requires lock in s.locks && !Moves(ix, lock)
    ensures var t := Step(s, ix);
      && lock in t.locks && t.locks[lock].rise == s.locks[lock].rise && t.locks[lock].owner == s.locks[lock].owner
      && (HoldsNft(t, lock) <==> HoldsNft(s, lock))
  {
  }

  /** Over any run that leaves the lock's NFT where it is: an owner who has it gets the RISE back from
      the end on, and an owner who has given it away is refused at every slot. */
  lemma {:induction false} LockIsReturnedToItsHolder(s: State, ixs: seq<Instruction>, lock: Id, slot: u64)
    requires Counted(s) && lock in s.locks
    requires forall i :: 0 <= i < |ixs| ==> !Moves(ixs[i], lock)
    ensures var t := Run(s, ixs);
      && lock in t.locks && t.locks[lock].rise == s.locks[lock].rise
      && (Accepts(t, UnlockRise(lock, slot)) <==> t.locks[lock].end <= slot && HoldsNft(s, lock))
    decreases |ixs|
  {
    if ixs == [] {
      ExpiredLockIsReturned(s, lock, slot);
    } else {
      StepKeepsCounted(s, ixs[0]);
      LockSurvivesStep(s, ixs[0], lock);
      LockIsReturnedToItsHolder(Step(s, ixs[0]), ixs[1..], lock, slot);
    }
  }

  /** A lock whose NFT is burned is never returned, whatever happens afterwards. */
  lemma {:induction false} BurnedNftEndsTheLock(s: State, ixs: seq<Instruction>, lock: Id, slot: u64)
    requires lock in s.locks && lock !in s.holders
    ensures var t := Run(s, ixs);
      lock in t.locks && lock !in t.holders && !Accepts(t, UnlockRise(lock, slot))
    decreases |ixs|
  {
    if ixs == [] {
    } else {
      BurnedNftEndsTheLock(Step(s, ixs[0]), ixs[1..], lock, slot);
    }
  }

  /** The NFT guard refuses ended locks: from genesis, a lock whose owner gave its NFT away is not
      returned to it at any slot. */
  lemma GivenAwayIsRefused(s0: State) returns (ixs: seq<Instruction>)
    requires s0 == Genesis(s0.teamBps, s0.veriseBps, s0.lastCollection)
    ensures var t := Run(s0, ixs);
      && Counted(t) && 1 in t.locks && t.locks[1].end == 604_800
      && (forall slot: u64 :: !Accepts(t, UnlockRise(1, slot)) && Step(t, UnlockRise(1, slot)) == t)
  {
    var i0, s1 := ShortLock(s0);
    var i1 := TransferNft(1, 8);
    ixs := [i0, i1];
    assert [i0, i1][1..] == [i1] && [i1][1..] == [];
    assert Run(s0, ixs) == Run(s1, [i1]) == Step(s1, i1);
    RunKeepsCounted(s0, ixs);
  }

  /** A lock is worth at most its RISE, and all of it exactly when it lasts the full four years. */
  lemma VeriseNeverExceedsRise(rise: nat, slots: nat)
    requires slots <= MAX_LOCK_SLOTS
    ensures CalculateVerise(rise, slots) <= rise
    ensures CalculateVerise(rise, slots) == rise <==> rise == 0 || slots == MAX_LOCK_SLOTS
  {
    ShareAtMost(rise, slots, MAX_LOCK_SLOTS);
    FloorAdjoint(rise, rise * slots, MAX_LOCK_SLOTS);
    if 0 < rise && slots < MAX_LOCK_SLOTS {
      MulMonotone(slots + 1, MAX_LOCK_SLOTS, rise);
    }
  }

  /** Voting weight only decays, stays positive until the end and within the lock's veRISE. */
  lemma VotingWeightDecays(l: Lock, slot: nat, slot': nat)
    requires l.start < l.end && l.start <= slot <= slot'
    ensures CurrentVerise(l, slot') <= CurrentVerise(l, slot) <= Max(l.verise, 1)
    ensures 0 < CurrentVerise(l, slot) <==> slot < l.end
    ensures slot == l.start ==> CurrentVerise(l, slot) == Max(l.verise, 1)
  {
    if slot < l.end {
      ShareAtMost(l.verise, l.end - slot, l.end - l.start);
    }
    if slot' < l.end {
      PartMonotone(l.verise, l.end - slot', l.end - slot, l.end - l.start);
    }
  }

  // --- An extension that is not harmless ---------------------------------------

  /** A week-long lock of a million RISE. */
  lemma ShortLock(s: State) returns (ix: Instruction, t: State)
    requires s == Genesis(s.teamBps, s.veriseBps, s.lastCollection)
    ensures t == Step(s, ix) && 1 in t.locks && t.locks[1].verise == 1_917 == t.totalVerise
    ensures t.locks[1].rise == 1_000_000 && t.locks[1].end == 604_800 && t.locks[1].lastIndex == 0
    ensures t.revenueIndex == t.totalDistributed == t.claimed == t.veriseVault == t.reserveVault == t.reserve == 0
    ensures t.maxLock == MAX_LOCK_SLOTS && t.locks[1].owner == 7 && 1 in t.holders
  {
    assert CalculateVerise(1_000_000, 604_800) == 1_917;
    ix := LockRise(7, 1, 1_000_000, 604_800, 1_000_000, 0);
    t := Step(s, ix);
  }

  lemma OneDistribution(s: State) returns (ix: Instruction, t: State)
    requires s.totalVerise == 1_917
    requires s.revenueIndex == s.totalDistributed == s.veriseVault == s.reserveVault == s.reserve == 0
    ensures t == Step(s, ix) && t.revenueIndex == 521_648_408_972 && t.totalDistributed == 1_000
    ensures t.locks == s.locks && t.totalVerise == s.totalVerise && t.claimed == s.claimed && t.maxLock == s.maxLock
  {
    assert IndexIncrease(s, 1_000) == 521_648_408_972;
    ix := Distribute(1_000, 0);
    t := Step(s, ix);
  }

  lemma LongExtension(s: State) returns (ix: Instruction, t: State)
    requires 1 in s.locks && s.locks[1].rise == 1_000_000 && s.locks[1].end == 604_800 && s.locks[1].lastIndex == 0
    requires s.locks[1].verise == 1_917 == s.totalVerise && s.maxLock == MAX_LOCK_SLOTS
    ensures t == Step(s, ix) && ix.ExtendLock?
    ensures 1 in t.locks && t.locks[1].verise == 1_000_000 && t.locks[1].lastIndex == 0
    ensures t.revenueIndex == s.revenueIndex && t.totalDistributed == s.totalDistributed && t.claimed == s.claimed
  {
    ix := ExtendLock(1, MAX_LOCK_SLOTS - 604_800, 0);
    assert ExtendedVerise(s.locks[1], MAX_LOCK_SLOTS - 604_800, 0) == 1_000_000;
    t := Step(s, ix);
  }

  /** Tameness is needed: a week-long lock, one distribution, and an extension to four years before
      the lock is settled leave more promised than was distributed. */
  lemma UnsettledExtensionExceedsDistribution(s: State) returns (ixs: seq<Instruction>)
    requires s == Genesis(s.teamBps, s.veriseBps, s.lastCollection)
    ensures |ixs| == 3 && ixs[2].ExtendLock?
    ensures !Solvent(Run(s, ixs))
  {
    var i0, s1 := ShortLock(s);
    var i1, s2 := OneDistribution(s1);
    var i2, s3 := LongExtension(s2);
    ixs := [i0, i1, i2];
    RunOfThree(s, i0, i1, i2);
    RunKeepsCounted(s, ixs);
    forall k | k in s3.locks ensures 0 <= Unclaimed(s3.revenueIndex)(s3.locks[k]) {
      UnclaimedIsOwed(s3.locks[k], s3.revenueIndex);
    }
    SumAtLeast(s3.locks, Unclaimed(s3.revenueIndex), 1);
  }

  lemma RunFirst(s: State, ix: Instruction, ixs: seq<Instruction>)
    ensures Run(s, [ix] + ixs) == Run(Step(s, ix), ixs)
  {
    assert ([ix] + ixs)[1..] == ixs;
  }

  lemma RunOfThree(s: State, a: Instruction, b: Instruction, c: Instruction)
    ensures Run(s, [a, b, c]) == Step(Step(Step(s, a), b), c)
  {
    assert [a, b, c] == [a] + [b, c] && [b, c] == [b] + [c] && [c] == [c] + [];
    RunFirst(s, a, [b, c]);
    RunFirst(Step(s, a), b, [c]);
    RunFirst(Step(Step(s, a), b), c, []);
  }
}
