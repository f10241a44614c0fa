/** The rules of the staking pool (rise-staking): `GlobalPool`, its SOL vault, the riseSOL mint
    and the withdrawal tickets, as a state machine over instructions. */
module StakingPool {
  import opened Arithmetic
  import opened MapSums

  const RATE_SCALE: nat := 1_000_000_000
  const UNSTAKE_EPOCH_DELAY: nat := 2

  datatype Ticket = Ticket(owner: Id, sol: nat, claimableEpoch: nat)

  datatype State = State(
    // GlobalPool
    totalSol: nat, stakingSupply: nat, rate: nat, liquid: nat, pending: nat,
    lastRateEpoch: nat, feeBps: nat, paused: bool, nonce: nat,
    // WithdrawalTicket accounts, the SOL vault and the riseSOL mint
    tickets: map<Id, Ticket>, vault: nat, tokenSupply: nat)

  /** `held` is the balance the signer pays from. The last four are what other programs do to the
      pool's accounts: mint and burn riseSOL for a debt, report burned interest, send SOL. */
  datatype Instruction =
    | StakeSol(lamports: u64, held: u64)
    | UnstakeRiseSol(owner: Id, amount: u64, held: u64, epoch: u64)
    | ClaimUnstake(ticket: Id, epoch: u64)
    | UpdateExchangeRate(epoch: u64)
    | CreditStakingRevenue(amount: u64)
    | ReceiveCdpLiquidity(amount: u64)
    | CollectFees
    | MintForCdp(amount: u64)
    | BurnRiseSol(amount: u64)
    | NotifyRiseSolBurned(amount: u64)
    | TransferIn(lamports: u64)

  ghost const SolOf: Ticket -> int := (t: Ticket) => t.sol

  // --- Invariant --------------------------------------------------------------

  /** The backing chain: riseSOL is backed by staked SOL, staked SOL by the liquid buffer, the
      buffer and the outstanding tickets by the vault. */
  ghost predicate Backed(s: State) {
    && RATE_SCALE <= s.rate
    && s.rate * s.stakingSupply <= s.totalSol * RATE_SCALE
    && s.totalSol <= s.liquid
    && s.liquid + s.pending <= s.vault < U64
  }

  ghost predicate Ticketed(s: State) {
    && s.pending == Sum(s.tickets, SolOf)
    && (forall n :: n in s.tickets ==> n < s.nonce)
  }

  ghost predicate Inv(s: State) { Backed(s) && Ticketed(s) && s.feeBps <= BPS && s.nonce < U64 }

  /** The pool right after `initialize_pool`. */
  function Genesis(feeBps: nat, epoch: nat, vault: nat): State {
    State(0, 0, RATE_SCALE, 0, 0, epoch, feeBps, false, 0, map[], vault, 0)
  }

  // --- When an instruction goes through, and what it does ----------------------

  function SolToRiseSol(s: State, lamports: nat): nat
    requires s.rate > 0
  {
    lamports * RATE_SCALE / s.rate
  }

  function RiseSolToSol(s: State, amount: nat): nat { amount * s.rate / RATE_SCALE }

  predicate CanStake(s: State, lamports: nat, held: nat) {
    && s.rate > 0 && !s.paused && 0 < lamports <= held
    && 0 < SolToRiseSol(s, lamports)
    && s.vault + lamports < U64
    && s.tokenSupply + SolToRiseSol(s, lamports) < U64
  }

  function Staked(s: State, lamports: nat): State
    requires s.rate > 0
  {
    var minted := SolToRiseSol(s, lamports);
    s.(totalSol := s.totalSol + lamports, stakingSupply := s.stakingSupply + minted,
       liquid := s.liquid + lamports, vault := s.vault + lamports, tokenSupply := s.tokenSupply + minted)
  }

  predicate CanUnstake(s: State, amount: nat, held: nat, epoch: nat) {
    var sol := RiseSolToSol(s, amount);
    && !s.paused && 0 < amount <= held <= s.tokenSupply && 0 < sol
    && amount <= s.stakingSupply && sol <= s.totalSol && sol <= s.liquid
    && s.nonce + 1 < U64 && epoch + UNSTAKE_EPOCH_DELAY < U64
  }

  function Unstaked(s: State, owner: Id, amount: nat, epoch: nat): State
    requires amount <= s.stakingSupply && amount <= s.tokenSupply
    requires RiseSolToSol(s, amount) <= s.totalSol && RiseSolToSol(s, amount) <= s.liquid
  {
    var sol := RiseSolToSol(s, amount);
    s.(stakingSupply := s.stakingSupply - amount, tokenSupply := s.tokenSupply - amount,
       totalSol := s.totalSol - sol, liquid := s.liquid - sol, pending := s.pending + sol,
       tickets := s.tickets[s.nonce := Ticket(owner, sol, epoch + UNSTAKE_EPOCH_DELAY)],
       nonce := s.nonce + 1)
  }

  predicate CanRedeem(s: State, ticket: Id, epoch: nat) {
    && !s.paused && ticket in s.tickets && s.tickets[ticket].claimableEpoch <= epoch
    && s.tickets[ticket].sol <= s.pending && s.tickets[ticket].sol <= s.vault
  }

  function Redeemed(s: State, ticket: Id): State
    requires ticket in s.tickets && s.tickets[ticket].sol <= s.pending && s.tickets[ticket].sol <= s.vault
  {
    var sol := s.tickets[ticket].sol;
    s.(pending := s.pending - sol, vault := s.vault - sol, tickets := s.tickets - {ticket})
  }

  /** SOL already in the vault becomes staked SOL, and the rate follows. */
  function Credited(s: State, amount: nat): State {
    s.(totalSol := s.totalSol + amount, liquid := s.liquid + amount,
       rate := if s.stakingSupply == 0 then s.rate
               else (s.totalSol + amount) * RATE_SCALE / s.stakingSupply)
  }

  /** The vault's excess over the buffer and the tickets. */
  function Excess(s: State): int { s.vault - s.pending - s.liquid }

  function Reward(s: State): nat
    requires 0 <= Excess(s) && s.feeBps <= BPS
  {
    ShareAtMost(Excess(s), s.feeBps, BPS);
    Excess(s) - Excess(s) * s.feeBps / BPS
  }

  function RateUpdated(s: State, epoch: nat): State
    requires s.feeBps <= BPS
  {
    if epoch <= s.lastRateEpoch then s
    else if Excess(s) <= 0 then s.(lastRateEpoch := epoch)
    else Credited(s, Reward(s)).(lastRateEpoch := epoch)
  }

  predicate Accepts(s: State, ix: Instruction) {
    match ix
    case StakeSol(lamports, held) => CanStake(s, lamports, held)
    case UnstakeRiseSol(_, amount, held, epoch) => CanUnstake(s, amount, held, epoch)
    case ClaimUnstake(ticket, epoch) => CanRedeem(s, ticket, epoch)
    case UpdateExchangeRate(epoch) => s.pending <= s.vault && s.feeBps <= BPS
    case CreditStakingRevenue(amount) => 0 < amount <= Excess(s)
    case ReceiveCdpLiquidity(amount) => 0 < amount <= Excess(s)
    case CollectFees => 0 <= Excess(s)
    case MintForCdp(amount) => 0 < amount && s.tokenSupply + amount < U64
    case BurnRiseSol(amount) => amount <= s.tokenSupply
    case NotifyRiseSolBurned(amount) => 0 < amount <= s.stakingSupply
    case TransferIn(lamports) => s.vault + lamports < U64
  }

  function Apply(s: State, ix: Instruction): State
    requires Accepts(s, ix)
  {
    match ix
    case StakeSol(lamports, _) => Staked(s, lamports)
    case UnstakeRiseSol(owner, amount, _, epoch) => Unstaked(s, owner, amount, epoch)
    case ClaimUnstake(ticket, _) => Redeemed(s, ticket)
    case UpdateExchangeRate(epoch) => RateUpdated(s, epoch)
    case CreditStakingRevenue(amount) => Credited(s, amount)
    case ReceiveCdpLiquidity(amount) => s.(liquid := s.liquid + amount)
    case CollectFees => s.(vault := s.liquid + s.pending)
    case MintForCdp(amount) => s.(tokenSupply := s.tokenSupply + amount)
    case BurnRiseSol(amount) => s.(tokenSupply := s.tokenSupply - amount)
    case NotifyRiseSolBurned(amount) => s.(stakingSupply := s.stakingSupply - amount)
    case TransferIn(lamports) => s.(vault := s.vault + lamports)
  }

  function Step(s: State, ix: Instruction): State {
    if Accepts(s, ix) then Apply(s, ix) else s
  }

  function Run(s: State, ixs: seq<Instruction>): State
    decreases |ixs|
  {
    if ixs == [] then s else Run(Step(s, ixs[0]), ixs[1..])
  }

  // --- What every instruction keeps -------------------------------------------

  lemma GenesisInv(feeBps: nat, epoch: nat, vault: nat)
    requires feeBps <= BPS && vault < U64
    ensures Inv(Genesis(feeBps, epoch, vault))
  {
  }

  /** Magnitudes in a backed pool: riseSOL is never more than the SOL behind it, and every
      product with the rate or its scale fits into 128 bits. */
  lemma Widths(s: State)
    requires Backed(s)
    ensures s.stakingSupply <= s.totalSol < U64
    ensures forall amount: nat :: amount <= s.stakingSupply ==> amount * s.rate < U128
  {
    MulMonotone(RATE_SCALE, s.rate, s.stakingSupply);
    forall amount: nat | amount <= s.stakingSupply ensures amount * s.rate < U128 {
      MulMonotone(amount, s.stakingSupply, s.rate);
    }
  }

  lemma StakedKeepsBacked(s: State, lamports: nat)
    requires Backed(s) && s.vault + lamports < U64
    ensures Backed(Staked(s, lamports))
  {
    var minted := SolToRiseSol(s, lamports);
    FloorBounds(lamports * RATE_SCALE, s.rate);
    assert s.rate * (s.stakingSupply + minted) == s.rate * s.stakingSupply + minted * s.rate;
  }

  /** Any part of the supply is worth at most its part of the staked SOL. */
  lemma PartIsBacked(s: State, amount: nat)
    requires Backed(s) && amount <= s.stakingSupply
    ensures RiseSolToSol(s, amount) <= s.totalSol
    ensures s.rate * (s.stakingSupply - amount) <= (s.totalSol - RiseSolToSol(s, amount)) * RATE_SCALE
  {
    FloorBounds(amount * s.rate, RATE_SCALE);
    MulMonotone(amount, s.stakingSupply, s.rate);
    assert s.rate * (s.stakingSupply - amount) == s.rate * s.stakingSupply - amount * s.rate;
    FloorAdjoint(s.totalSol + 1, amount * s.rate, RATE_SCALE);
    assert (s.totalSol + 1) * RATE_SCALE == s.totalSol * RATE_SCALE + RATE_SCALE;
  }

  lemma UnstakedKeepsInv(s: State, owner: Id, amount: nat, epoch: nat)
    requires Inv(s) && amount <= s.stakingSupply && amount <= s.tokenSupply && s.nonce + 1 < U64
    ensures RiseSolToSol(s, amount) <= s.totalSol && Inv(Unstaked(s, owner, amount, epoch))
  {
    PartIsBacked(s, amount);
    SumPut(s.tickets, SolOf, s.nonce, Unstaked(s, owner, amount, epoch).tickets[s.nonce]);
  }

  lemma RedeemedKeepsInv(s: State, ticket: Id)
    requires Inv(s) && ticket in s.tickets
    ensures s.tickets[ticket].sol <= s.pending && Inv(Redeemed(s, ticket))
  {
    SumAtLeast(s.tickets, SolOf, ticket);
    SumDrop(s.tickets, SolOf, ticket);
  }

  /** Recomputing the rate by floor division can only raise it: the backing inequality says
      that the old rate still fits under the quotient. */
  lemma CreditedKeepsBacked(s: State, amount: nat)
    requires Backed(s) && amount <= Excess(s)
    ensures Backed(Credited(s, amount)) && s.rate <= Credited(s, amount).rate
  {
    if s.stakingSupply > 0 {
      var backing := (s.totalSol + amount) * RATE_SCALE;
      assert backing == s.totalSol * RATE_SCALE + amount * RATE_SCALE;
      FloorAdjoint(s.rate, backing, s.stakingSupply);
      FloorBounds(backing, s.stakingSupply);
    }
  }

  lemma RateUpdatedKeepsBacked(s: State, epoch: nat)
    requires Backed(s) && s.feeBps <= BPS
    ensures Backed(RateUpdated(s, epoch)) && s.rate <= RateUpdated(s, epoch).rate
  {
    if s.lastRateEpoch < epoch && 0 < Excess(s) {
      CreditedKeepsBacked(s, Reward(s));
    }
  }

  lemma BurnedKeepsBacked(s: State, amount: nat)
    requires Backed(s) && amount <= s.stakingSupply
    ensures Backed(s.(stakingSupply := s.stakingSupply - amount))
  {
    MulMonotone(s.stakingSupply - amount, s.stakingSupply, s.rate);
  }

  lemma StepKeepsInv(s: State, ix: Instruction)
    requires Inv(s)
    ensures Inv(Step(s, ix)) && s.rate <= Step(s, ix).rate
  {
    if Accepts(s, ix) {
      match ix
      case StakeSol(lamports, _) => StakedKeepsBacked(s, lamports);
      case UnstakeRiseSol(owner, amount, _, epoch) => UnstakedKeepsInv(s, owner, amount, epoch);
      case ClaimUnstake(ticket, _) => RedeemedKeepsInv(s, ticket);
      case UpdateExchangeRate(epoch) => RateUpdatedKeepsBacked(s, epoch);
      case CreditStakingRevenue(amount) => CreditedKeepsBacked(s, amount);
      case NotifyRiseSolBurned(amount) => BurnedKeepsBacked(s, amount);
      case ReceiveCdpLiquidity(_) =>
      case CollectFees =>
      case MintForCdp(_) =>
      case BurnRiseSol(_) =>
      case TransferIn(_) =>
    }
  }

  /** Every reachable state is backed, and the exchange rate never falls. */
  lemma {:induction false} RunKeepsInv(s: State, ixs: seq<Instruction>)
    requires Inv(s)
    ensures Inv(Run(s, ixs)) && s.rate <= Run(s, ixs).rate
    decreases |ixs|
  {
    if ixs == [] {
    } else {
      StepKeepsInv(s, ixs[0]);
      RunKeepsInv(Step(s, ixs[0]), ixs[1..]);
    }
  }
}
