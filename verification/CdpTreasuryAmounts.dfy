/** What the instructions around the positions move, to the unit: claims and seizures of collateral,
    borrow rewards and the two sweeps of fees. Amounts are given by the inequalities that define
    rounding down, and whatever is not named stays as it was. */
module CdpTreasuryAmounts {
  import opened Arithmetic
  import opened MapSums
  import opened Accumulator
  import opened Risk
  import opened Settlement
  import opened Cdp
  import opened CdpInvariants
  import opened CdpAmounts
  import opened CdpClearingAmounts
  import Pool = StakingPool
  import PoolAmounts = StakingAmounts
  import Gov = Governance
  import GovAmounts = GovernanceAmounts

  // --- Claiming collateral --------------------------------------------------------------

  /** A claim ends position and rewards account, pays what the vault has, and counts the rest as settled:
      its entitlement is gone either way. */
  lemma ClaimReturns(s: State, k: Id, prices: Prices, rent: u64)
    requires CanClaim(s, k, prices, rent)
    ensures var t, p, c := Claimed(s, k, prices, rent), s.positions[k], CollateralFor(s, k);
      var paid := if p.collateral <= c.vault then p.collateral else c.vault;
      && t == s.(positions := s.positions - {k}, buybackVault := t.buybackVault, gov := t.gov,
                 collaterals := s.collaterals[p.mint :=
                   c.(vault := c.vault - paid, settled := c.settled + (p.collateral - paid),
                      entitlements := if p.collateral <= c.entitlements then c.entitlements - p.collateral else 0)])
  {
  }

  /** What pays for the tokens that are missing: the SOL set aside for this position, or else the
      treasury's reserve, at their cost. */
  lemma ClaimSpends(s: State, k: Id, prices: Prices, rent: u64, cost: nat)
    requires Gov.ReserveKept(s.gov) && CanClaim(s, k, prices, rent)
    requires var p, c := s.positions[k], CollateralFor(s, k);
      c.vault < p.collateral && p.buyback == 0 ==> IsCost(cost, p.collateral - c.vault, prices, c.unit)
    ensures var t, p, c := Claimed(s, k, prices, rent), s.positions[k], CollateralFor(s, k);
      if p.collateral <= c.vault then t.gov == s.gov && t.buybackVault == s.buybackVault
      else if 0 < p.buyback then t.gov == s.gov && t.buybackVault == s.buybackVault - p.buyback
      else
        && t.buybackVault == s.buybackVault && cost % U64 <= s.gov.reserveVault
        && t.gov == s.gov.(reserve := s.gov.reserve - cost % U64, reserveVault := s.gov.reserveVault - cost % U64)
  {
    var p, c := s.positions[k], CollateralFor(s, k);
    if c.vault < p.collateral && p.buyback == 0 { CostUnique(cost, p.collateral - c.vault, prices, c.unit); }
  }

  /** Every position that is not open may be claimed, unless tokens are missing that neither the SOL set
      aside nor the reserve pays for. */
  lemma ClaimIsAcceptedIff(s: State, k: Id, prices: Prices, rent: u64, usd: nat, cost: nat)
    requires k in s.positions && s.positions[k].mint in s.collaterals
    requires var p, c := s.positions[k], CollateralFor(s, k);
      c.vault < p.collateral && p.buyback == 0 ==>
        && 0 < prices.collateral && IsUsd(usd, p.collateral - c.vault, prices.collateral, c.unit)
        && IsFloor(cost, usd * 1_000_000_000, prices.sol)
    ensures var p, c := s.positions[k], CollateralFor(s, k);
      CanClaim(s, k, prices, rent) <==>
        && !p.phase.Open?
        && (p.collateral <= c.vault
            || (0 < p.buyback <= s.buybackVault)
            || (p.buyback == 0 && (p.collateral - c.vault) * prices.collateral < U128 && usd * 1_000_000_000 < U128
                && s.buybackVault + cost % U64 < U64 && (0 < cost % U64 ==> cost % U64 + rent <= s.gov.reserveVault)))
  {
    var p, c := s.positions[k], CollateralFor(s, k);
    if c.vault < p.collateral && p.buyback == 0 {
      FloorUnique(usd, (p.collateral - c.vault) * prices.collateral, c.unit);
      FloorUnique(cost, usd * LAMPORTS_PER_SOL, prices.sol);
    }
  }

  // --- Seizing collateral ------------------------------------------------------------------

  /** Tokens for the liquidity that the pool's tickets miss, at the price of collateral and SOL. */
  ghost predicate IsMaxSeizure(tokens: nat, s: State, prices: Prices, unit: pos) {
    && s.pool.liquid <= s.pool.pending
    && exists usd: nat ::
         IsSolUsd(usd, s.pool.pending - s.pool.liquid, prices.sol) && IsFloor(tokens, usd * unit, prices.collateral)
  }

  lemma MaxSeizureUnique(tokens: nat, s: State, c: Collateral, prices: Prices)
    requires IsMaxSeizure(tokens, s, prices, c.unit)
    ensures 0 < prices.collateral && MaxSeizure(s, c, prices) == tokens % U64
  {
    var usd: nat :| IsSolUsd(usd, s.pool.pending - s.pool.liquid, prices.sol)
      && IsFloor(tokens, usd * c.unit, prices.collateral);
    FloorUnique(usd, (s.pool.pending - s.pool.liquid) * prices.sol, LAMPORTS_PER_SOL);
    FloorUnique(tokens, usd * c.unit, prices.collateral);
  }

  /** A seizure takes what was asked for, or the tokens for the missing liquidity if they are fewer, out of
      the vault; the swap's SOL joins vault and buffer of the pool, the rent its vault. */
  lemma SeizureMoves(s: State, mint: Id, amount: u64, prices: Prices, sol: u64, rent: u64, most: nat)
    requires CanSeize(s, mint, amount, prices, sol, rent)
    requires IsMaxSeizure(most, s, prices, s.collaterals[mint].unit)
    ensures var t, c := Seized(s, mint, amount, prices, sol, rent), s.collaterals[mint];
      var taken := if amount <= most % U64 then amount else most % U64;
      && taken <= c.vault
      && t == s.(collaterals := s.collaterals[mint := c.(vault := c.vault - taken, seized := c.seized + taken)],
                 pool := s.pool.(vault := s.pool.vault + sol + rent, liquid := s.pool.liquid + sol))
  {
    MaxSeizureUnique(most, s, s.collaterals[mint], prices);
  }

  /** Collateral is seized only while tickets are worth more than the buffer, and only for a swap that
      returns SOL. */
  lemma SeizureIsAcceptedIff(
    s: State, mint: Id, amount: u64, prices: Prices, sol: u64, rent: u64, usd: nat, most: nat)
    requires Inv(s) && mint in s.collaterals && 0 < prices.sol && 0 < prices.collateral
    requires s.pool.liquid < s.pool.pending && IsSolUsd(usd, s.pool.pending - s.pool.liquid, prices.sol)
    requires IsFloor(most, usd * s.collaterals[mint].unit, prices.collateral)
    ensures var taken := if amount <= most % U64 then amount else most % U64;
      CanSeize(s, mint, amount, prices, sol, rent) <==>
        && 0 < taken <= s.collaterals[mint].vault && 0 < sol
        && (s.pool.pending - s.pool.liquid) * prices.sol < U128 && usd * s.collaterals[mint].unit < U128
        && s.pool.vault + sol + rent < U64
  {
    assert IsMaxSeizure(most, s, prices, s.collaterals[mint].unit);
    MaxSeizureUnique(most, s, s.collaterals[mint], prices);
    FloorUnique(usd, (s.pool.pending - s.pool.liquid) * prices.sol, LAMPORTS_PER_SOL);
  }

  lemma NoSeizureWithoutShortfall(s: State, mint: Id, amount: u64, prices: Prices, sol: u64, rent: u64)
    requires s.pool.pending <= s.pool.liquid
    ensures !CanSeize(s, mint, amount, prices, sol, rent)
  {
  }

  // --- Borrow rewards --------------------------------------------------------------------------

  /** A checkpoint emits the slots' part of the epoch's emission and spreads it over the total debt; without
      debt only the clock moves. */
  lemma CheckpointEmits(s: State, slot: u64)
    requires Inv(s) && CanCheckpoint(s, slot)
    ensures var t := Checkpointed(s, slot);
      && t == s.(lastCheckpoint := Max(s.lastCheckpoint, slot), emitted := t.emitted,
                 rewardPerToken := t.rewardPerToken)
      && (s.lastCheckpoint < slot && 0 < s.totalDebt ==>
            && IsFloor(t.emitted - s.emitted, s.epochEmissions * (slot - s.lastCheckpoint), s.slotsPerEpoch)
            && IsFloor(t.rewardPerToken - s.rewardPerToken, (t.emitted - s.emitted) * 1_000_000_000_000, s.totalDebt))
      && (slot <= s.lastCheckpoint || s.totalDebt == 0 ==>
            t.emitted == s.emitted && t.rewardPerToken == s.rewardPerToken)
  {
    if s.lastCheckpoint < slot && 0 < s.totalDebt {
      FloorIs(s.epochEmissions * (slot - s.lastCheckpoint), s.slotsPerEpoch);
      FloorIs(Emission(s, slot) * REWARD_SCALE, s.totalDebt);
    }
  }

  /** A rewards claim pays what was pending and what the principal earned since, whatever the phase. */
  lemma RewardsClaimPays(s: State, k: Id, earned: int)
    requires CanClaimRewards(s, k) && IsEarned(earned, ShareIn(s.positions[k]), s.rewardPerToken)
    ensures var t, p := RewardsClaimed(s, k), s.positions[k];
      var due := p.rewards.pending + earned;
      && 0 < due <= s.rewardsVault
      && t == s.(positions := s.positions[k :=
                   p.(rewards := Rewards(p.rewards.debt + earned, 0, p.rewards.claimed + due))],
                 rewardsVault := s.rewardsVault - due, paid := s.paid + due)
  {
    EarnedUnique(earned, ShareIn(s.positions[k]), s.rewardPerToken);
  }

  // --- Fees ------------------------------------------------------------------------------------------

  /** Nine tenths to the stakers; of the rest, half to the veRISE holders; what then remains to the reserve. */
  ghost predicate IsNineFiveFive(total: nat, staking: int, verise: int, reserve: int) {
    && IsFloor(staking, total * 9, 10) && IsFloor(verise, total - staking, 2) && staking + verise + reserve == total
  }

  lemma FeesAre(total: nat)
    ensures var f := SplitCdpFees(total); IsNineFiveFive(total, f.staking, f.verise, f.reserve)
  {
  }

  /** What a credited transfer does to the pool. */
  lemma CreditMoves(pool: Pool.State, share: nat)
    requires CanCredit(pool, share)
    ensures var t := Credited(pool, share);
      && t == pool.(vault := pool.vault + share, totalSol := pool.totalSol + share, liquid := pool.liquid + share,
                    rate := t.rate)
      && (share == 0 || pool.stakingSupply == 0 ==> t.rate == pool.rate)
      && (0 < share && 0 < pool.stakingSupply ==> PoolAmounts.IsPrice(t.rate, t))
  {
    PoolAmounts.CreditedIs(pool.(vault := pool.vault + share), share);
  }

  /** The sweep of the fee vault leaves the rent; each of the three receivers books its part in full, the
      pool at the rate that follows. */
  lemma CdpSweepPays(s: State, rent: u64)
    requires CanCollectCdpFees(s, rent) && rent < s.feeVault
    ensures var t := CdpFeesCollected(s, rent);
      var staking := t.pool.vault - s.pool.vault;
      var verise, reserve := t.gov.veriseVault - s.gov.veriseVault, t.gov.reserveVault - s.gov.reserveVault;
      && IsNineFiveFive(s.feeVault - rent, staking, verise, reserve) && 0 <= staking && 0 <= verise && 0 <= reserve
      && t == s.(feeVault := rent, pool := t.pool, gov := t.gov)
      && t.pool == s.pool.(vault := s.pool.vault + staking, totalSol := s.pool.totalSol + staking,
                           liquid := s.pool.liquid + staking, rate := t.pool.rate)
      && (0 < staking && 0 < s.pool.stakingSupply ==> PoolAmounts.IsPrice(t.pool.rate, t.pool))
  {
    FeesAre(s.feeVault - rent);
    CreditMoves(s.pool, Sweepable(s, rent).staking);
  }

  /** Below the rent there is nothing to sweep. */
  lemma CdpSweepWaits(s: State, rent: u64)
    requires s.feeVault <= rent
    ensures CanCollectCdpFees(s, rent) && CdpFeesCollected(s, rent) == s
  {
  }

  lemma CdpSweepDistributes(s: State, rent: u64)
    requires CanCollectCdpFees(s, rent) && rent < s.feeVault
    ensures var g, h := s.gov, CdpFeesCollected(s, rent).gov;
      && g.veriseVault <= h.veriseVault && g.reserveVault <= h.reserveVault && h.lastCollection == g.lastCollection
      && GovAmounts.IsDistributed(g, h, h.veriseVault - g.veriseVault, h.reserveVault - g.reserveVault)
  {
    GovAmounts.DistributedIs(s.gov, Sweepable(s, rent).verise, Sweepable(s, rent).reserve, 0);
  }

  /** The sweep of the pool takes all that is not booked: the team's and the veRISE holders' configured parts,
      and the rest for the reserve. The epoch is taken with it. */
  lemma PoolSweepPays(s: State, epoch: u64, team: nat, verise: nat)
    requires Inv(s) && CanCollectFees(s, epoch) && 0 < Pool.Excess(s.pool)
    requires IsFloor(team, Pool.Excess(s.pool) * s.gov.teamBps, 10_000)
    requires IsFloor(verise, Pool.Excess(s.pool) * s.gov.veriseBps, 10_000)
    ensures var t, total := FeesCollected(s, epoch), Pool.Excess(s.pool);
      && team + verise <= total && total <= s.pool.vault
      && t == s.(pool := s.pool.(vault := s.pool.vault - total), gov := t.gov)
      && GovAmounts.IsDistributed(s.gov, t.gov, verise, total - team - verise) && t.gov.lastCollection == epoch
  {
    var total: nat := Pool.Excess(s.pool);
    FloorUnique(team, total * s.gov.teamBps, BPS);
    FloorUnique(verise, total * s.gov.veriseBps, BPS);
    GovAmounts.DistributedIs(s.gov, verise, total - team - verise, epoch);
  }

  /** It is made once per epoch, unless there was nothing to sweep. */
  lemma PoolSweepIsAcceptedIff(s: State, epoch: u64, team: nat, verise: nat)
    requires Inv(s)
    requires IsFloor(team, Pool.Excess(s.pool) * s.gov.teamBps, 10_000)
    requires IsFloor(verise, Pool.Excess(s.pool) * s.gov.veriseBps, 10_000)
    ensures var total := Pool.Excess(s.pool);
      CanCollectFees(s, epoch) <==>
        && s.gov.lastCollection < epoch
        && (0 < total ==> team + verise <= total && Gov.CanDistribute(s.gov, verise, total - team - verise))
  {
    var total: nat := Pool.Excess(s.pool);
    FloorUnique(team, total * s.gov.teamBps, BPS);
    FloorUnique(verise, total * s.gov.veriseBps, BPS);
  }

  lemma SecondSweepIsRefused(s: State, epoch: u64, again: u64)
    requires Inv(s) && CanCollectFees(s, epoch) && 0 < Pool.Excess(s.pool) && again <= epoch
    ensures !CanCollectFees(FeesCollected(s, epoch), again)
  {
  }

  lemma IdleSweepTakesNothing(s: State, epoch: u64)
    requires Inv(s) && s.gov.lastCollection < epoch && Pool.Excess(s.pool) == 0
    ensures CanCollectFees(s, epoch) && FeesCollected(s, epoch) == s
  {
  }
}
