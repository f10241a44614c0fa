/** The handlers of rise-staking, statement by statement, on the accounts of the pool.

    A handler works on copies of the accounts (its out-parameters); the instruction writes them
    back when the handler ends well. In a backed pool none of the 128-bit operations can abort. */
module StakingProgram {
  import opened Arithmetic
  import opened MapSums
  import opened StakingPool

  lemma MintedAtMost(s: State, lamports: nat)
    requires Backed(s)
    ensures SolToRiseSol(s, lamports) <= lamports
  {
    var minted := SolToRiseSol(s, lamports);
    FloorBounds(lamports * RATE_SCALE, s.rate);
    MulMonotone(RATE_SCALE, s.rate, minted);
  }

  class Program {
    var totalSol: nat
    var stakingSupply: nat
    var rate: nat
    var liquid: nat
    var pending: nat
    var lastRateEpoch: nat
    var feeBps: nat
    var paused: bool
    var nonce: nat
    var tickets: map<Id, Ticket>
    var vault: nat
    var tokenSupply: nat

    ghost function Accounts(): State reads this {
      State(totalSol, stakingSupply, rate, liquid, pending, lastRateEpoch, feeBps, paused, nonce,
            tickets, vault, tokenSupply)
    }

    ghost predicate Valid() reads this { Inv(Accounts()) }

    /** `initialize_pool`. */
    constructor (fee: u64, epoch: u64, balance: u64)
      requires fee <= BPS
      ensures Valid() && Accounts() == Genesis(fee, epoch, balance)
    {
      totalSol, stakingSupply, rate, liquid, pending := 0, 0, RATE_SCALE, 0, 0;
      lastRateEpoch, feeBps, paused, nonce := epoch, fee, false, 0;
      tickets, vault, tokenSupply := map[], balance, 0;
      new;
      GenesisInv(fee, epoch, balance);
    }

    method StakeHandler(lamports: u64, held: u64) returns (r: Outcome, minted: nat)
      requires Backed(Accounts())
      ensures r.Done? <==> CanStake(Accounts(), lamports, held)
      ensures r.Done? ==> minted == SolToRiseSol(Accounts(), lamports)
      ensures paused ==> r == Failed(PoolPaused)
      ensures !paused && lamports == 0 ==> r == Failed(ZeroAmount)
    {
      minted := 0;
      Widths(Accounts());
      MintedAtMost(Accounts(), lamports);
      :- Require(!paused, PoolPaused);
      :- Require(lamports > 0, ZeroAmount);
      var product :- Mul128(lamports, RATE_SCALE);
      var quotient :- CheckedDiv(product, rate);
      minted :- Narrow64(quotient);
      :- Require(minted > 0, ZeroAmount);
      :- Require(lamports <= held && vault + lamports < U64, TransferFailed);
      var sol :- Add128(totalSol, lamports);
      var supply :- Add128(stakingSupply, minted);
      var buffer :- Add128(liquid, lamports);
      r := Require(tokenSupply + minted < U64, TransferFailed);
    }

    method StakeSol(lamports: u64, held: u64) returns (r: Outcome)
      requires Backed(Accounts())
      modifies this
      ensures r.Done? <==> old(CanStake(Accounts(), lamports, held))
      ensures Accounts() == old(if r.Done? then Staked(Accounts(), lamports) else Accounts())
    {
      var minted;
      r, minted := StakeHandler(lamports, held);
      if r.Done? {
        totalSol, stakingSupply := totalSol + lamports, stakingSupply + minted;
        liquid, vault, tokenSupply := liquid + lamports, vault + lamports, tokenSupply + minted;
      }
    }

    method UnstakeHandler(owner: Id, amount: u64, held: u64, epoch: u64)
      returns (r: Outcome, sol: nat, supply: nat, total: nat, buffer: nat, queued: nat, next: nat, ticket: Ticket)
      requires Backed(Accounts()) && held <= tokenSupply
      ensures r.Done? <==> CanUnstake(Accounts(), amount, held, epoch)
      ensures r.Done? ==> sol == RiseSolToSol(Accounts(), amount) && supply == stakingSupply - amount
                          && total == totalSol - sol && buffer == liquid - sol && queued == pending + sol
                          && next == nonce + 1 && ticket == Ticket(owner, sol, epoch + UNSTAKE_EPOCH_DELAY)
      ensures paused ==> r == Failed(PoolPaused)
    {
      sol, supply, total, buffer, queued, next, ticket := 0, 0, 0, 0, 0, 0, Ticket(owner, 0, 0);
      Widths(Accounts());
      if amount <= stakingSupply { PartIsBacked(Accounts(), amount); }
      :- Require(!paused, PoolPaused);
      :- Require(amount > 0, ZeroAmount);
      var product :- Mul128(amount, rate);
      sol :- Narrow64(product / RATE_SCALE);
      :- Require(sol > 0, ZeroAmount);
      :- Require(amount <= held, TransferFailed);
      supply :- CheckedSub(stakingSupply, amount);
      total :- CheckedSub(totalSol, sol);
      buffer :- CheckedSub(liquid, sol);
      queued :- Add128(pending, sol);
      next :- Add64(nonce, 1);
      var claimable :- Add64(epoch, 2);
      ticket := Ticket(owner, sol, claimable);
      r := Done;
    }

    method UnstakeRiseSol(owner: Id, amount: u64, held: u64, epoch: u64) returns (r: Outcome)
      requires Backed(Accounts()) && held <= tokenSupply
      modifies this
      ensures r.Done? <==> old(CanUnstake(Accounts(), amount, held, epoch))
      ensures Accounts() == old(if r.Done? then Unstaked(Accounts(), owner, amount, epoch) else Accounts())
    {
      var sol, supply, total, buffer, queued, next, ticket;
      r, sol, supply, total, buffer, queued, next, ticket := UnstakeHandler(owner, amount, held, epoch);
      if r.Done? {
        tickets, nonce := tickets[nonce := ticket], next;
        stakingSupply, tokenSupply := supply, tokenSupply - amount;
        totalSol, liquid, pending := total, buffer, queued;
      }
    }

    method ClaimUnstake(ticket: Id, epoch: u64) returns (r: Outcome)
      modifies this
      ensures r.Done? <==> old(CanRedeem(Accounts(), ticket, epoch))
      ensures Accounts() == old(if r.Done? then Redeemed(Accounts(), ticket) else Accounts())
    {
      r := Done;
      :- Require(!paused, PoolPaused);
      :- Require(ticket in tickets, AccountMissing);
      :- Require(epoch >= tickets[ticket].claimableEpoch, UnstakeNotReady);
      var sol := tickets[ticket].sol;
      var queued :- CheckedSub(pending, sol);
      :- Require(sol <= vault, TransferFailed);
      pending, vault, tickets := queued, vault - sol, tickets - {ticket};
    }

    /** The rate that `update_exchange_rate` and `credit_staking_revenue` recompute. */
    method Recomputed(total: nat) returns (r: Outcome, newRate: nat)
      requires total < U64
      ensures r.Done? && newRate == if stakingSupply == 0 then rate else total * RATE_SCALE / stakingSupply
    {
      newRate := rate;
      if stakingSupply > 0 {
        var product :- Mul128(total, RATE_SCALE);
        newRate :- CheckedDiv(product, stakingSupply);
      }
      r := Done;
    }

    method UpdateRateHandler(epoch: u64) returns (r: Outcome, credited: nat, newRate: nat)
      requires Backed(Accounts()) && feeBps <= BPS && lastRateEpoch < epoch
      ensures r.Done?
      ensures Excess(Accounts()) == 0 ==> credited == 0 && newRate == rate
      ensures 0 < Excess(Accounts()) ==>
        credited == Reward(Accounts()) && newRate == Credited(Accounts(), credited).rate
      ensures IsFloor(Excess(Accounts()) - credited, Excess(Accounts()) * feeBps, 10_000)
    {
      credited, newRate := 0, rate;
      var available :- CheckedSub(vault, pending);
      if available <= liquid { return Done, 0, rate; }
      var rewards :- CheckedSub(available, liquid);
      MulMonotone(feeBps, BPS, rewards);
      var product :- Mul128(rewards, feeBps);
      ShareAtMost(rewards, feeBps, BPS);
      FloorIs(product, BPS);
      credited :- CheckedSub(rewards, product / 10_000);
      var total :- Add128(totalSol, credited);
      var buffer :- Add128(liquid, credited);
      r, newRate := Recomputed(total);
    }

    method UpdateExchangeRate(epoch: u64) returns (r: Outcome)
      requires Backed(Accounts()) && feeBps <= BPS
      modifies this
      ensures r.Done?
      ensures Accounts() == old(RateUpdated(Accounts(), epoch))
      ensures old(lastRateEpoch) < epoch ==> IsFloor(Excess(Accounts()), old(Excess(Accounts())) * feeBps, 10_000)
    {
      if epoch <= lastRateEpoch { return Done; }
      var credited, newRate;
      r, credited, newRate := UpdateRateHandler(epoch);
      totalSol, liquid, rate, lastRateEpoch := totalSol + credited, liquid + credited, newRate, epoch;
    }

    /** The check that `amount` lamports really arrived in the vault unaccounted for. */
    method CheckArrived(amount: u64) returns (r: Outcome)
      requires Backed(Accounts())
      ensures r.Done? <==> 0 < amount <= Excess(Accounts())
      ensures amount == 0 ==> r == Failed(ZeroAmount)
      ensures 0 < amount && Excess(Accounts()) < amount ==> r == Failed(InsufficientLiquidity)
    {
      r := Require(amount > 0, ZeroAmount);
      if r.Failed? { return; }
      var accounted :- Add128(liquid, pending);
      r := Require(vault >= accounted + amount, InsufficientLiquidity);
    }

    method CreditStakingRevenue(amount: u64) returns (r: Outcome)
      requires Backed(Accounts())
      modifies this
      ensures r.Done? <==> old(0 < amount <= Excess(Accounts()))
      ensures Accounts() == old(if r.Done? then Credited(Accounts(), amount) else Accounts())
    {
      r := CheckArrived(amount);
      if r.Failed? { return; }
      var total :- Add128(totalSol, amount);
      var buffer :- Add128(liquid, amount);
      var newRate;
      r, newRate := Recomputed(total);
      totalSol, liquid, rate := total, buffer, newRate;
    }

    method ReceiveCdpLiquidity(amount: u64) returns (r: Outcome)
      requires Backed(Accounts())
      modifies this
      ensures r.Done? <==> old(0 < amount <= Excess(Accounts()))
      ensures Accounts() == old(if r.Done? then Accounts().(liquid := liquid + amount) else Accounts())
    {
      r := CheckArrived(amount);
      if r.Done? { liquid := liquid + amount; }
    }

    /** The vault part of `collect_fees`: everything above the buffer and the tickets leaves. */
    method Sweep() returns (r: Outcome, fees: nat)
      modifies this
      ensures r.Done? <==> old(0 <= Excess(Accounts()))
      ensures r.Done? ==> fees == old(Excess(Accounts()))
      ensures Accounts() == old(if r.Done? then Accounts().(vault := liquid + pending) else Accounts())
    {
      fees := 0;
      var aboveBuffer :- CheckedSub(vault, liquid);
      fees :- CheckedSub(aboveBuffer, pending);
      vault := vault - fees;
      r := Done;
    }

    // --- Calls made by the CDP program and by the runtime ------------------------

    method MintForCdp(amount: u64) returns (r: Outcome)
      modifies this
      ensures r.Done? <==> old(Accepts(Accounts(), Instruction.MintForCdp(amount)))
      ensures Accounts() == old(Step(Accounts(), Instruction.MintForCdp(amount)))
    {
      r := Done;
      :- Require(amount > 0, ZeroAmount);
      :- Require(tokenSupply + amount < U64, TransferFailed);
      tokenSupply := tokenSupply + amount;
    }

    method BurnRiseSol(amount: u64) returns (r: Outcome)
      modifies this
      ensures r.Done? <==> old(Accepts(Accounts(), Instruction.BurnRiseSol(amount)))
      ensures Accounts() == old(Step(Accounts(), Instruction.BurnRiseSol(amount)))
    {
      r := Done;
      :- Require(amount <= tokenSupply, TransferFailed);
      tokenSupply := tokenSupply - amount;
    }

    method NotifyRiseSolBurned(amount: u64) returns (r: Outcome)
      modifies this
      ensures r.Done? <==> old(Accepts(Accounts(), Instruction.NotifyRiseSolBurned(amount)))
      ensures Accounts() == old(Step(Accounts(), Instruction.NotifyRiseSolBurned(amount)))
    {
      r := Done;
      :- Require(amount > 0, ZeroAmount);
      stakingSupply :- CheckedSub(stakingSupply, amount);
    }

    method TransferIn(lamports: u64) returns (r: Outcome)
      modifies this
      ensures r.Done? <==> old(Accepts(Accounts(), Instruction.TransferIn(lamports)))
      ensures Accounts() == old(Step(Accounts(), Instruction.TransferIn(lamports)))
    {
      r := Done;
      :- Require(vault + lamports < U64, TransferFailed);
      vault := vault + lamports;
    }

    /** One transaction: exactly the step the rules allow, and the pool stays backed.
        A token account never holds more riseSOL than was minted. */
    method Execute(ix: Instruction) returns (r: Outcome)
      requires Valid()
      requires ix.UnstakeRiseSol? ==> ix.held <= tokenSupply
      modifies this
      ensures Valid() && old(rate) <= rate
      ensures Accounts() == Step(old(Accounts()), ix)
      ensures r.Done? <==> Accepts(old(Accounts()), ix)
    {
      StepKeepsInv(Accounts(), ix);
      match ix {
        case StakeSol(lamports, held) => r := StakeSol(lamports, held);
        case UnstakeRiseSol(owner, amount, held, epoch) => r := UnstakeRiseSol(owner, amount, held, epoch);
        case ClaimUnstake(ticket, epoch) => r := ClaimUnstake(ticket, epoch);
        case UpdateExchangeRate(epoch) => r := UpdateExchangeRate(epoch);
        case CreditStakingRevenue(amount) => r := CreditStakingRevenue(amount);
        case ReceiveCdpLiquidity(amount) => r := ReceiveCdpLiquidity(amount);
        case CollectFees => { var fees; r, fees := Sweep(); }
        case MintForCdp(amount) => r := MintForCdp(amount);
        case BurnRiseSol(amount) => r := BurnRiseSol(amount);
        case NotifyRiseSolBurned(amount) => r := NotifyRiseSolBurned(amount);
        case TransferIn(lamports) => r := TransferIn(lamports);
      }
    }
  }
}
