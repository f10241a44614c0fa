/** What every instruction of the staking pool moves, to the lamport: amounts are given by the
    inequalities that define rounding down, and whatever is not named stays as it was. */
module StakingAmounts {
  import opened Arithmetic
  import opened MapSums
  import opened StakingPool

  // --- Staking and unstaking ----------------------------------------------------

  /** A stake mints its value at the current rate, rounded down. */
  lemma StakeMints(s: State, lamports: u64, held: u64, minted: nat)
    requires Accepts(s, StakeSol(lamports, held)) && IsFloor(minted, lamports * 1_000_000_000, s.rate)
    ensures Apply(s, StakeSol(lamports, held)) ==
      s.(totalSol := s.totalSol + lamports, liquid := s.liquid + lamports, vault := s.vault + lamports,
         stakingSupply := s.stakingSupply + minted, tokenSupply := s.tokenSupply + minted)
  {
    FloorUnique(minted, lamports * RATE_SCALE, s.rate);
  }

  /** Only the pause switch, the payer's balance, a stake too small for one unit and the integer widths
      refuse a stake. */
  lemma StakeIsAcceptedIff(s: State, lamports: u64, held: u64, minted: nat)
    requires Inv(s) && IsFloor(minted, lamports * 1_000_000_000, s.rate)
    ensures Accepts(s, StakeSol(lamports, held)) <==>
      && !s.paused && 0 < lamports <= held && 0 < minted
      && s.vault + lamports < U64 && s.tokenSupply + minted < U64
  {
    FloorUnique(minted, lamports * RATE_SCALE, s.rate);
  }

  /** An unstake burns its riseSOL and moves their value, rounded down, from the buffer to a ticket that
      falls due two epochs later. The vault stays as it is. */
  lemma UnstakeQueues(s: State, owner: Id, amount: u64, held: u64, epoch: u64, sol: nat)
    requires Accepts(s, UnstakeRiseSol(owner, amount, held, epoch)) && IsFloor(sol, amount * s.rate, 1_000_000_000)
    ensures sol <= s.totalSol && sol <= s.liquid
    ensures Apply(s, UnstakeRiseSol(owner, amount, held, epoch)) ==
      s.(stakingSupply := s.stakingSupply - amount, tokenSupply := s.tokenSupply - amount,
         totalSol := s.totalSol - sol, liquid := s.liquid - sol, pending := s.pending + sol,
         tickets := s.tickets[s.nonce := Ticket(owner, sol, epoch + 2)], nonce := s.nonce + 1)
  {
    FloorUnique(sol, amount * s.rate, RATE_SCALE);
  }

  /** In a backed pool an unstake needs no more than the tokens, one lamport's worth of them, and room in
      the two counters. */
  lemma UnstakeIsAcceptedIff(s: State, owner: Id, amount: u64, held: u64, epoch: u64)
    requires Inv(s) && held <= s.tokenSupply
    ensures Accepts(s, UnstakeRiseSol(owner, amount, held, epoch)) <==>
      && !s.paused && 0 < amount <= held && amount <= s.stakingSupply && 1_000_000_000 <= amount * s.rate
      && s.nonce + 1 < U64 && epoch + 2 < U64
  {
    FloorAdjoint(1, amount * s.rate, RATE_SCALE);
    if amount <= s.stakingSupply { PartIsBacked(s, amount); }
  }

  /** A ticket is paid what it says, once. */
  lemma RedemptionPays(s: State, ticket: Id, epoch: u64)
    requires Inv(s) && ticket in s.tickets
    ensures Accepts(s, ClaimUnstake(ticket, epoch)) <==> !s.paused && s.tickets[ticket].claimableEpoch <= epoch
    ensures Accepts(s, ClaimUnstake(ticket, epoch)) ==>
      var sol := s.tickets[ticket].sol;
      && sol <= s.pending <= s.vault
      && Apply(s, ClaimUnstake(ticket, epoch)) ==
           s.(pending := s.pending - sol, vault := s.vault - sol, tickets := s.tickets - {ticket})
  {
    RedeemedKeepsInv(s, ticket);
  }

  // --- The exchange rate ------------------------------------------------------------

  /** The staked SOL per unit of the staking supply, rounded down, with nine decimals. */
  ghost predicate IsPrice(rate: nat, s: State) { IsFloor(rate, s.totalSol * 1_000_000_000, s.stakingSupply) }

  lemma CreditedIs(s: State, amount: nat)
    ensures var t := Credited(s, amount);
      && t == s.(totalSol := s.totalSol + amount, liquid := s.liquid + amount, rate := t.rate)
      && (s.stakingSupply == 0 ==> t.rate == s.rate)
      && (0 < s.stakingSupply ==> IsPrice(t.rate, t))
  {
    if 0 < s.stakingSupply { FloorIs((s.totalSol + amount) * RATE_SCALE, s.stakingSupply); }
  }

  /** Revenue that is in the vault and not booked is credited in full, and the rate becomes the price. */
  lemma CreditBooks(s: State, amount: u64)
    ensures Accepts(s, CreditStakingRevenue(amount)) <==> 0 < amount && s.liquid + s.pending + amount <= s.vault
    ensures Accepts(s, CreditStakingRevenue(amount)) ==>
      var t := Apply(s, CreditStakingRevenue(amount));
      && t == s.(totalSol := s.totalSol + amount, liquid := s.liquid + amount, rate := t.rate)
      && (s.stakingSupply == 0 ==> t.rate == s.rate)
      && (0 < s.stakingSupply ==> IsPrice(t.rate, t))
  {
    CreditedIs(s, amount);
  }

  lemma RewardLeavesFee(s: State)
    requires 0 <= Excess(s) && s.feeBps <= BPS
    ensures IsFloor(Excess(s) - Reward(s), Excess(s) * s.feeBps, 10_000)
  {
    ShareAtMost(Excess(s), s.feeBps, BPS);
    FloorIs(Excess(s) * s.feeBps, BPS);
  }

  /** A rate update books everything that is not booked yet, except the protocol fee on it, which stays
      where it is for the next sweep. It does so once per epoch, and the rate becomes the price. */
  lemma UpdateBooksAllButTheFee(s: State, epoch: u64)
    requires Inv(s) && s.lastRateEpoch < epoch
    ensures Accepts(s, UpdateExchangeRate(epoch))
    ensures var t := Apply(s, UpdateExchangeRate(epoch));
      && IsFloor(Excess(t), Excess(s) * s.feeBps, 10_000)
      && t == s.(totalSol := s.totalSol + (Excess(s) - Excess(t)), liquid := s.liquid + (Excess(s) - Excess(t)),
                 rate := t.rate, lastRateEpoch := epoch)
      && (s.stakingSupply == 0 || Excess(s) == 0 ==> t.rate == s.rate)
      && (0 < s.stakingSupply && 0 < Excess(s) ==> IsPrice(t.rate, t))
  {
    if 0 < Excess(s) {
      RewardLeavesFee(s);
      CreditedIs(s, Reward(s));
    }
  }

  lemma SecondUpdateDoesNothing(s: State, epoch: u64)
    requires Inv(s) && epoch <= s.lastRateEpoch
    ensures Step(s, UpdateExchangeRate(epoch)) == s
  {
  }

  /** Whatever is updated and swept, everything that arrived is booked or was swept as a fee: an update
      and a sweep right after it divide what was not booked into credit and fee exactly. */
  lemma UpdateThenSweep(s: State, epoch: u64)
    requires Inv(s) && s.lastRateEpoch < epoch
    ensures var u := Step(s, UpdateExchangeRate(epoch));
      var t := Step(u, CollectFees);
      && IsFloor(s.vault - t.vault, Excess(s) * s.feeBps, 10_000)
      && t.totalSol - s.totalSol == t.liquid - s.liquid == Excess(s) - (s.vault - t.vault)
      && Excess(t) == 0
  {
    UpdateBooksAllButTheFee(s, epoch);
  }

  /** SOL that arrived and is not booked may join the buffer, where nothing is staked for it. */
  lemma LiquidityBooks(s: State, amount: u64)
    ensures Accepts(s, ReceiveCdpLiquidity(amount)) <==> 0 < amount && s.liquid + s.pending + amount <= s.vault
    ensures Accepts(s, ReceiveCdpLiquidity(amount)) ==>
      Apply(s, ReceiveCdpLiquidity(amount)) == s.(liquid := s.liquid + amount)
  {
  }
}
