/** What every instruction of the CDP engine keeps, across the programs it calls. */
module CdpInvariants {
  import opened Arithmetic
  import opened MapSums
  import opened Accumulator
  import opened Cdp
  import Pool = StakingPool
  import Gov = Governance

  ghost const PrincipalOf: Position -> int := (p: Position) => p.loan.principal
  ghost const BuybackOf: Position -> int := (p: Position) => p.buyback

  /** What a position still holds of a mint: ended positions hold nothing, whatever they record. */
  ghost function HeldOf(mint: Id): Position -> int {
    (p: Position) => if p.mint == mint && !p.phase.Ended? then p.collateral else 0
  }

  ghost function SharesIn(positions: map<Id, Position>): map<Id, Share> {
    map k | k in positions :: ShareIn(positions[k])
  }

  ghost function BookOf(s: State): Book {
    Book(s.rewardPerToken, SharesIn(s.positions), s.emitted, s.paid, s.changes)
  }

  // --- Invariants -------------------------------------------------------------

  /** The three debt counters agree, and the borrow rewards are solvent. */
  ghost predicate Booked(s: State) {
    && s.minted == s.totalDebt == Sum(s.positions, PrincipalOf)
    && s.totalDebt < U64 && s.rewardPerToken < U128
    && Sound(BookOf(s))
  }

  /** All riseSOL there is was staked for, borrowed, or borrowed and cleared without a burn. */
  ghost predicate Supplied(s: State) {
    s.pool.tokenSupply == s.pool.stakingSupply + s.minted + s.unburned
  }

  /** The SOL set aside to buy collateral back is there. */
  ghost predicate Reserved(s: State) {
    Sum(s.positions, BuybackOf) <= s.buybackVault < U64 && s.feeVault < U64 && s.rewardsVault < U64
  }

  /** Rewards are emitted no faster than the schedule, however checkpoints are spaced. */
  ghost predicate Scheduled(s: State) {
    OnSchedule(s.emitted, s.epochEmissions, s.slotsPerEpoch, s.startSlot, s.lastCheckpoint)
  }

  ghost predicate OnSchedule(emitted: nat, epochEmissions: nat, slotsPerEpoch: nat, start: nat, last: nat) {
    && 0 < slotsPerEpoch && start <= last < U64 && epochEmissions < U64
    && emitted * slotsPerEpoch <= epochEmissions * (last - start)
  }

  ghost predicate Sane(p: Position) {
    && p.loan.interest < U64 && p.collateral < U64 && p.rewards.pending < U64 && p.rewards.claimed < U64
    && (!p.phase.Open? ==> p.loan.principal == p.loan.interest == 0)
    && (!p.phase.AwaitingClaim? ==> p.buyback == 0)
  }

  ghost predicate Listed(c: Collateral) { ValidTerms(c.terms) && c.entitlements < U64 && c.vault < U64 }

  ghost predicate Shaped(s: State) {
    && s.multiplierBps < U32
    && (forall k :: k in s.positions ==> Sane(s.positions[k]) && s.positions[k].mint in s.collaterals)
    && (forall m :: m in s.collaterals ==> Listed(s.collaterals[m]))
  }

  ghost predicate Calls(s: State) { Pool.Inv(s.pool) && Gov.Counted(s.gov) && Gov.Sized(s.gov) }

  ghost predicate Inv(s: State) {
    Booked(s) && Supplied(s) && Reserved(s) && Scheduled(s) && Shaped(s) && Calls(s)
  }

  /** Per mint: what the vault holds and what was taken for liquidity is what borrowers are entitled
      to and what was bought back for them; and the entitlements are what the positions hold. */
  ghost predicate MintInCustody(s: State, mint: Id)
    requires mint in s.collaterals
  {
    var c := s.collaterals[mint];
    c.vault + c.seized == c.entitlements + c.settled && c.entitlements == Sum(s.positions, HeldOf(mint))
  }

  ghost predicate Custody(s: State) { forall m :: m in s.collaterals ==> MintInCustody(s, m) }

  /** The three programs right after their initialisation. */
  ghost predicate Initial(s: State) {
    && s == Genesis(s.multiplierBps, s.epochEmissions, s.slotsPerEpoch, s.startSlot, s.pool, s.gov)
    && s.multiplierBps < U32 && s.epochEmissions < U64 && 0 < s.slotsPerEpoch && s.startSlot < U64
    && s.pool == Pool.Genesis(s.pool.feeBps, s.pool.lastRateEpoch, s.pool.vault)
    && s.pool.feeBps <= BPS && s.pool.vault < U64
    && s.gov == Gov.Genesis(s.gov.teamBps, s.gov.veriseBps, s.gov.lastCollection)
  }

  lemma InitialInv(s: State)
    requires Initial(s)
    ensures Inv(s) && Custody(s)
  {
    Pool.GenesisInv(s.pool.feeBps, s.pool.lastRateEpoch, s.pool.vault);
  }

  // --- Sums over positions ------------------------------------------------------

  lemma SharesPut(positions: map<Id, Position>, k: Id, p: Position)
    ensures SharesIn(positions[k := p]) == SharesIn(positions)[k := ShareIn(p)]
  {
  }

  lemma SharesDrop(positions: map<Id, Position>, k: Id)
    ensures SharesIn(positions - {k}) == SharesIn(positions) - {k}
  {
  }

  lemma {:induction false} WeightIsPrincipal(positions: map<Id, Position>)
    ensures Sum(SharesIn(positions), Weight) == Sum(positions, PrincipalOf)
    decreases positions
  {
    if positions == map[] {
    } else {
      var k :| k in positions;
      SumSplit(positions, PrincipalOf, k);
      SumSplit(SharesIn(positions), Weight, k);
      SharesDrop(positions, k);
      WeightIsPrincipal(positions - {k});
    }
  }

  function ShareAt(s: State, k: Id): Share {
    if k in s.positions then ShareIn(s.positions[k]) else NO_SHARE
  }

  /** No counter is below the debt of any position: subtracting it never saturates. */
  lemma PrincipalIsCounted(s: State, k: Id)
    requires Booked(s)
    ensures PrincipalAt(s, k) <= s.minted == s.totalDebt
  {
    if k in s.positions {
      SumAtLeast(s.positions, PrincipalOf, k);
    } else {
      SumNonNegative(s.positions, PrincipalOf);
    }
  }

  /** What a settlement relies on. */
  lemma SettlementIsFair(s: State, k: Id)
    requires Booked(s)
    ensures 0 <= Earned(ShareAt(s, k), s.rewardPerToken) <= s.emitted
  {
    FairAt(BookOf(s), k);
  }

  // --- Writing one position -----------------------------------------------------

  ghost predicate Writes(s: State, t: State, k: Id) {
    k in t.positions && t.positions == s.positions[k := t.positions[k]]
  }

  ghost predicate SameRewards(s: State, t: State) {
    t.rewardPerToken == s.rewardPerToken && t.emitted == s.emitted && t.paid == s.paid
  }

  lemma SettledKeepsBooked(s: State, t: State, k: Id)
    requires Booked(s) && Writes(s, t, k) && SameRewards(s, t)
    requires 0 <= Earned(ShareAt(s, k), s.rewardPerToken)
    requires ShareIn(t.positions[k]) == Settled(ShareAt(s, k), s.rewardPerToken, t.positions[k].loan.principal)
    requires t.minted == t.totalDebt == s.totalDebt - PrincipalAt(s, k) + t.positions[k].loan.principal < U64
    requires t.changes == s.changes + if t.positions[k].loan.principal == PrincipalAt(s, k) then 0 else 1
    ensures Booked(t)
  {
    var b, p := BookOf(s), t.positions[k];
    SharesPut(s.positions, k, p);
    assert ShareOf(b.shares, k) == ShareAt(s, k);
    ReweighKeepsSound(b, k, p.loan.principal);
    assert BookOf(t) == Reweigh(b, k, p.loan.principal);
    SumPut(s.positions, PrincipalOf, k, p);
  }

  lemma TouchedKeepsBooked(s: State, t: State, k: Id)
    requires Booked(s) && Writes(s, t, k) && SameRewards(s, t) && t.changes == s.changes
    requires k in s.positions && ShareIn(t.positions[k]) == ShareIn(s.positions[k])
    requires t.minted == s.minted && t.totalDebt == s.totalDebt
    ensures Booked(t)
  {
    assert SharesIn(t.positions) == SharesIn(s.positions);
    SumPut(s.positions, PrincipalOf, k, t.positions[k]);
  }

  lemma WriteKeepsReserved(s: State, t: State, k: Id)
    requires Reserved(s) && Writes(s, t, k)
    requires t.buybackVault - s.buybackVault == t.positions[k].buyback - At(s.positions, BuybackOf, k)
    requires t.buybackVault < U64 && t.feeVault < U64 && t.rewardsVault < U64
    ensures Reserved(t)
  {
    SumPut(s.positions, BuybackOf, k, t.positions[k]);
  }

  lemma WriteKeepsShaped(s: State, t: State, k: Id)
    requires Shaped(s) && Writes(s, t, k) && t.multiplierBps == s.multiplierBps
    requires Sane(t.positions[k]) && t.positions[k].mint in s.collaterals
    requires t.collaterals == s.collaterals ||
      (t.positions[k].mint in t.collaterals && Listed(t.collaterals[t.positions[k].mint])
       && t.collaterals == s.collaterals[t.positions[k].mint := t.collaterals[t.positions[k].mint]])
    ensures Shaped(t)
  {
  }

  lemma WriteKeepsCustody(s: State, t: State, k: Id, mint: Id)
    requires Custody(s) && Writes(s, t, k) && mint in s.collaterals && mint in t.collaterals
    requires t.positions[k].mint == mint && (k in s.positions ==> s.positions[k].mint == mint)
    requires t.collaterals == s.collaterals[mint := t.collaterals[mint]]
    requires var c, d := s.collaterals[mint], t.collaterals[mint];
      && d.entitlements - c.entitlements == d.vault - c.vault
           == HeldOf(mint)(t.positions[k]) - At(s.positions, HeldOf(mint), k)
      && d.seized == c.seized && d.settled == c.settled
    ensures Custody(t)
  {
    forall m | m in t.collaterals ensures MintInCustody(t, m) {
      assert MintInCustody(s, m);
      SumPut(s.positions, HeldOf(m), k, t.positions[k]);
    }
  }
}
