/** What stakers can rely on, over whole runs of the staking pool. */
module StakingTheorems {
  import opened Arithmetic
  import opened MapSums
  import opened StakingPool

  /** The backing chain, from genesis on, whatever happens. */
  lemma BackingChain(feeBps: nat, epoch: nat, vault: u64, ixs: seq<Instruction>)
    requires feeBps <= BPS
    ensures var s := Run(Genesis(feeBps, epoch, vault), ixs);
      && RATE_SCALE <= s.rate
      && s.rate * s.stakingSupply <= s.totalSol * RATE_SCALE
      && s.totalSol <= s.liquid
      && s.liquid + s.pending <= s.vault
      && s.pending == Sum(s.tickets, SolOf)
  {
    GenesisInv(feeBps, epoch, vault);
    RunKeepsInv(Genesis(feeBps, epoch, vault), ixs);
  }

  /** Redemption never fails on the pool's accounting: only the request itself, the pause switch
      and the two counters decide. */
  lemma UnstakeGoesThrough(s: State, owner: Id, amount: u64, held: u64, epoch: u64)
    requires Inv(s) && held <= s.tokenSupply
    ensures Accepts(s, UnstakeRiseSol(owner, amount, held, epoch)) <==>
      && !s.paused && 0 < amount <= held && amount <= s.stakingSupply && 0 < RiseSolToSol(s, amount)
      && s.nonce + 1 < U64 && epoch + UNSTAKE_EPOCH_DELAY < U64
  {
    if amount <= s.stakingSupply {
      PartIsBacked(s, amount);
    }
  }

  /** Nothing but its own redemption touches a ticket, and nothing pauses a pool. */
  lemma {:induction false} TicketSurvives(s: State, ixs: seq<Instruction>, ticket: Id)
    requires Inv(s) && ticket in s.tickets
    requires forall i :: 0 <= i < |ixs| ==> !(ixs[i].ClaimUnstake? && ixs[i].ticket == ticket)
    ensures var t := Run(s, ixs);
      t.paused == s.paused && ticket in t.tickets && t.tickets[ticket] == s.tickets[ticket]
    decreases |ixs|
  {
    if ixs == [] {
    } else {
      StepKeepsInv(s, ixs[0]);
      TicketSurvivesStep(s, ixs[0], ticket);
      TicketSurvives(Step(s, ixs[0]), ixs[1..], ticket);
    }
  }

  lemma TicketSurvivesStep(s: State, ix: Instruction, ticket: Id)
    requires Inv(s) && ticket in s.tickets
    requires !(ix.ClaimUnstake? && ix.ticket == ticket)
    ensures var t := Step(s, ix);
      t.paused == s.paused && ticket in t.tickets && t.tickets[ticket] == s.tickets[ticket]
  {
  }

  /** The whole redemption: a ticket bought at one rate pays exactly the SOL value locked at that
      moment, from two epochs later on, whatever others do in between. */
  lemma RedemptionPaysTheLockedAmount(
    s: State, owner: Id, amount: u64, held: u64, epoch: u64, ixs: seq<Instruction>, later: u64)
    requires Inv(s) && Accepts(s, UnstakeRiseSol(owner, amount, held, epoch))
    requires forall i :: 0 <= i < |ixs| ==> !(ixs[i].ClaimUnstake? && ixs[i].ticket == s.nonce)
    ensures var t := Run(Step(s, UnstakeRiseSol(owner, amount, held, epoch)), ixs);
      var sol := amount * s.rate / RATE_SCALE;
      && s.nonce in t.tickets && t.tickets[s.nonce] == Ticket(owner, sol, epoch + UNSTAKE_EPOCH_DELAY)
      && (Accepts(t, ClaimUnstake(s.nonce, later)) <==> epoch + UNSTAKE_EPOCH_DELAY <= later)
      && (epoch + UNSTAKE_EPOCH_DELAY <= later ==>
            Step(t, ClaimUnstake(s.nonce, later)).vault == t.vault - sol)
  {
    var u := Step(s, UnstakeRiseSol(owner, amount, held, epoch));
    StepKeepsInv(s, UnstakeRiseSol(owner, amount, held, epoch));
    var t := Run(u, ixs);
    TicketSurvives(u, ixs, s.nonce);
    RunKeepsInv(u, ixs);
    RedeemedKeepsInv(t, s.nonce);
  }

  /** Staking and unstaking at once returns at most the stake, and loses at most the value of one
      riseSOL unit, rounded up, and one lamport. */
  lemma StakeUnstakeRoundTrip(s: State, lamports: u64, held: u64)
    requires Inv(s) && Accepts(s, StakeSol(lamports, held))
    ensures var t := Step(s, StakeSol(lamports, held));
      var minted := t.stakingSupply - s.stakingSupply;
      && 0 < minted == t.tokenSupply - s.tokenSupply
      && lamports - (s.rate / RATE_SCALE + 1) <= RiseSolToSol(t, minted) <= lamports
  {
    var minted := lamports * RATE_SCALE / s.rate;
    FloorBounds(lamports * RATE_SCALE, s.rate);
    FloorBounds(s.rate, RATE_SCALE);
    FloorBounds(minted * s.rate, RATE_SCALE);
  }

  /** Fees are swept down to exactly what is owed, and nothing that is owed is swept. */
  lemma SweepLeavesWhatIsOwed(s: State)
    requires Inv(s)
    ensures Accepts(s, CollectFees)
    ensures var t := Step(s, CollectFees);
      t.vault == t.liquid + t.pending && t == s.(vault := t.vault) && t.vault <= s.vault
  {
  }

  /** Revenue that was just transferred in is always accepted: no matter what the vault held. */
  lemma TransferredRevenueIsCredited(s: State, amount: u64)
    requires Inv(s) && 0 < amount && s.vault + amount < U64
    ensures var t := Step(s, TransferIn(amount));
      && Accepts(t, CreditStakingRevenue(amount))
      && Step(t, CreditStakingRevenue(amount)).totalSol == s.totalSol + amount
      && (0 < s.stakingSupply ==>
            Step(t, CreditStakingRevenue(amount)).rate == (s.totalSol + amount) * RATE_SCALE / s.stakingSupply)
  {
  }
}
