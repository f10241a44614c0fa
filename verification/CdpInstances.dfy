/** Runs of the CDP engine that reach the cases its properties have to exclude. */
module CdpInstances {
  import opened Arithmetic
  import opened MapSums
  import opened Interest
  import opened Risk
  import opened Cdp
  import opened CdpInvariants
  import opened CdpSteps
  import opened CdpCustody
  import Pool = StakingPool

  const STAKE: nat := 1_000_000

  /** A new engine with room for a million staked lamports, at three times which debt is capped. */
  ghost predicate Fresh(s0: State) {
    Initial(s0) && s0.multiplierBps == 30_000 && s0.pool.vault + STAKE < U64
  }

  /** Nothing but small debts against the collateral of mint 1, and no rewards yet. */
  ghost predicate Quiet(s: State, terms: Terms, unit: pos, held: nat, owed: nat) {
    && 1 in s.collaterals && s.collaterals[1] == Collateral(true, terms, unit, held, held, 0, 0)
    && s.multiplierBps == 30_000 && s.rewardPerToken == 0 && s.minted == s.totalDebt == owed
    && s.pool.stakingSupply == STAKE && s.pool.rate == Pool.RATE_SCALE && s.feeVault == 0 && s.pool.vault < U64
    && held <= 10_000 && owed <= 1_000 && s.pool.tokenSupply == STAKE + owed
  }

  /** An open position that owes its principal and no interest. */
  ghost predicate Borrows(p: Position, tokens: nat, amount: nat) {
    p.mint == 1 && p.collateral == tokens && p.loan == Loan(amount, 0, 0) && p.phase.Open?
    && p.rewards == Rewards(0, 0, 0) && p.buyback == 0
  }

  // --- Single steps -------------------------------------------------------------------

  lemma List(s: State, terms: Terms, unit: pos) returns (ix: Instruction, t: State)
    requires Fresh(s) && ValidTerms(terms) && 0 < terms.curve.optimal < BPS
    ensures !ix.ClaimCollateral? && t == Step(s, ix)
    ensures t == s.(collaterals := s.collaterals[1 := Collateral(true, terms, unit, 0, 0, 0, 0)])
  {
    ix := InitializeCollateral(1, terms, unit);
    t := Step(s, ix);
  }

  lemma FirstStake(pool: Pool.State)
    requires pool == Pool.Genesis(pool.feeBps, pool.lastRateEpoch, pool.vault) && pool.vault + STAKE < U64
    ensures var ix := Pool.StakeSol(STAKE, STAKE);
      && Pool.Accepts(pool, ix)
      && Pool.Apply(pool, ix).stakingSupply == STAKE == Pool.Apply(pool, ix).tokenSupply
      && Pool.Apply(pool, ix).rate == Pool.RATE_SCALE && Pool.Apply(pool, ix).vault < U64
  {
    assert Pool.SolToRiseSol(pool, STAKE) == STAKE;
  }

  lemma Stake(s0: State, s: State, terms: Terms, unit: pos) returns (ix: Instruction, t: State)
    requires Fresh(s0)
    requires s == s0.(collaterals := s0.collaterals[1 := Collateral(true, terms, unit, 0, 0, 0, 0)])
    ensures !ix.ClaimCollateral? && t == Step(s, ix) && Quiet(t, terms, unit, 0, 0) && t.positions == map[]
  {
    FirstStake(s.pool);
    ix := PoolInstruction(Pool.StakeSol(STAKE, STAKE));
    t := Step(s, ix);
    assert t == s.(pool := Pool.Apply(s.pool, Pool.StakeSol(STAKE, STAKE)));
  }

  /** Small numbers within their limits. */
  ghost predicate Affordable(terms: Terms, unit: pos, tokens: nat, amount: nat, prices: Prices) {
    && 0 < tokens <= 1_000 && 0 < amount <= 10 && unit <= 10
    && 0 < prices.collateral <= 1_000_000 && 0 < prices.sol <= LAMPORTS_PER_SOL
    && CollateralUsd(tokens, prices.collateral, unit) <= 1_000_000_000
    && amount <= MaxDebtUsd(CollateralUsd(tokens, prices.collateral, unit), terms.maxLtv) * LAMPORTS_PER_SOL / prices.sol
  }

  lemma AffordableIsBorne(c: Collateral, tokens: nat, amount: nat, prices: Prices)
    requires ValidTerms(c.terms) && Affordable(c.terms, c.unit, tokens, amount, prices)
    ensures Bears(c, tokens, amount, prices)
  {
    var usd := CollateralUsd(tokens, prices.collateral, c.unit);
    MulMonotone(tokens, 1_000, prices.collateral);
    MulMonotone(amount, 10, prices.sol);
    MulMonotone(usd, 1_000_000_000, c.terms.maxLtv);
    MulMonotone(usd, 1_000_000_000, c.terms.threshold);
  }

  lemma SmallLoanFits(s: State, amount: u64)
    requires s.multiplierBps == 30_000 && s.pool.stakingSupply == STAKE && s.minted <= 1_000 && amount <= 10
    ensures CanLend(s, amount, amount)
  {
    assert CeilingNow(s) == 3_000_000;
  }

  lemma CanOpenSmall(s: State, terms: Terms, unit: pos, held: nat, owed: nat,
                     k: Id, tokens: u64, amount: u64, prices: Prices)
    requires Quiet(s, terms, unit, held, owed) && k !in s.positions
    requires held <= 1_000 && owed <= 100 && ValidTerms(terms) && Affordable(terms, unit, tokens, amount, prices)
    ensures CanOpen(s, k, 1, tokens, amount, tokens, prices)
  {
    AffordableIsBorne(s.collaterals[1], tokens, amount, prices);
    SmallLoanFits(s, amount);
  }

  lemma OpenedSmall(s: State, terms: Terms, unit: pos, held: nat, owed: nat,
                    k: Id, tokens: u64, amount: u64, prices: Prices)
    requires Quiet(s, terms, unit, held, owed) && k !in s.positions && CanOpen(s, k, 1, tokens, amount, tokens, prices)
    requires held + tokens <= 10_000 && owed + amount <= 1_000
    ensures var t := Opened(s, k, 1, tokens, amount, prices, 0);
      && Quiet(t, terms, unit, held + tokens, owed + amount)
      && t.positions.Keys == s.positions.Keys + {k} && Borrows(t.positions[k], tokens, amount)
      && (forall j :: j in s.positions ==> t.positions[j] == s.positions[j])
  {
  }

  lemma Borrow(s: State, terms: Terms, unit: pos, held: nat, owed: nat,
               k: Id, tokens: u64, amount: u64, prices: Prices)
    returns (ix: Instruction, t: State)
    requires Quiet(s, terms, unit, held, owed) && k !in s.positions
    requires held <= 1_000 && owed <= 100 && ValidTerms(terms) && Affordable(terms, unit, tokens, amount, prices)
    ensures !ix.ClaimCollateral? && t == Step(s, ix) && Quiet(t, terms, unit, held + tokens, owed + amount)
    ensures t.positions.Keys == s.positions.Keys + {k} && Borrows(t.positions[k], tokens, amount)
    ensures forall j :: j in s.positions ==> t.positions[j] == s.positions[j]
  {
    CanOpenSmall(s, terms, unit, held, owed, k, tokens, amount, prices);
    OpenedSmall(s, terms, unit, held, owed, k, tokens, amount, prices);
    ix := OpenPosition(k, 1, tokens, amount, tokens, prices, 0);
    t := Step(s, ix);
  }

  // --- Runs ---------------------------------------------------------------------------

  /** A run of some length that claims no collateral. */
  ghost predicate Reached(s0: State, ixs: seq<Instruction>, s: State) {
    Run(s0, ixs) == s && forall i :: 0 <= i < |ixs| ==> !ixs[i].ClaimCollateral?
  }

  lemma {:induction false} RunThen(s: State, ixs: seq<Instruction>, ix: Instruction)
    ensures Run(s, ixs + [ix]) == Step(Run(s, ixs), ix)
    decreases |ixs|
  {
    if ixs == [] {
      assert (ixs + [ix])[1..] == [];
    } else {
      assert (ixs + [ix])[1..] == ixs[1..] + [ix];
      RunThen(Step(s, ixs[0]), ixs[1..], ix);
    }
  }

  lemma ReachedThen(s0: State, ixs: seq<Instruction>, s: State, ix: Instruction, t: State)
    requires Reached(s0, ixs, s) && !ix.ClaimCollateral? && t == Step(s, ix)
    ensures Reached(s0, ixs + [ix], t)
  {
    RunThen(s0, ixs, ix);
  }

  lemma ReachedInThree(s0: State, a: Instruction, s1: State, b: Instruction, s2: State, c: Instruction, s3: State)
    requires !a.ClaimCollateral? && !b.ClaimCollateral? && !c.ClaimCollateral?
    requires s1 == Step(s0, a) && s2 == Step(s1, b) && s3 == Step(s2, c)
    ensures Reached(s0, [a, b, c], s3)
  {
    ReachedThen(s0, [], s0, a, s1);
    ReachedThen(s0, [] + [a], s1, b, s2);
    ReachedThen(s0, [] + [a] + [b], s2, c, s3);
    assert [] + [a] + [b] + [c] == [a, b, c];
  }

  lemma {:induction false} ClaimlessIsRegular(s: State, ixs: seq<Instruction>)
    requires forall i :: 0 <= i < |ixs| ==> !ixs[i].ClaimCollateral?
    ensures RegularRun(s, ixs)
    decreases |ixs|
  {
    if ixs == [] {
    } else {
      ClaimlessIsRegular(Step(s, ixs[0]), ixs[1..]);
    }
  }

  lemma ReachedKeeps(s0: State, ixs: seq<Instruction>, s: State)
    requires Initial(s0) && Reached(s0, ixs, s)
    ensures Inv(s) && Custody(s)
  {
    InitialInv(s0);
    RunKeepsInv(s0, ixs);
    ClaimlessIsRegular(s0, ixs);
    RunKeepsCustody(s0, ixs);
  }

  // --- A claim on an ended position -----------------------------------------------------

  const PLAIN := Terms(5_000, 6_000, 0, Curve(0, 0, 0, 8_000))
  const PAR := Prices(1_000_000, 1_000_000)

  lemma CloseIsStep(s: State, k: Id, held: u64)
    requires CanClose(s, k, held)
    ensures Step(s, ClosePosition(k, held)) == Closed(s, k, held)
  {
  }

  lemma CloseReached(s0: State, ixs: seq<Instruction>, s: State, k: Id, held: u64)
    requires Reached(s0, ixs, s) && CanClose(s, k, held)
    ensures Reached(s0, ixs + [ClosePosition(k, held)], Closed(s, k, held))
  {
    CloseIsStep(s, k, held);
    ReachedThen(s0, ixs, s, ClosePosition(k, held), Closed(s, k, held));
  }

  lemma CanCloseSmall(s: State, held: nat, owed: nat, k: Id, cash: u64)
    requires Quiet(s, PLAIN, 1, held, owed) && 1 <= owed && 1_000 <= held && 1 <= cash
    requires k in s.positions && Borrows(s.positions[k], 1_000, 1)
    ensures CanClose(s, k, cash)
  {
  }

  /** Closing returns the collateral and leaves the position, ended; the others stay as they are. */
  lemma ClosedLeaves(s: State, k: Id, held: nat)
    requires CanClose(s, k, held)
    ensures var t, p := Closed(s, k, held), s.positions[k];
      && k in t.positions && t.positions[k].phase.Ended?
      && t.positions[k].mint == p.mint && t.positions[k].collateral == p.collateral
      && p.mint in t.collaterals && t.collaterals[p.mint].vault == s.collaterals[p.mint].vault - p.collateral
      && (forall i :: i in s.positions && i != k ==> i in t.positions && t.positions[i] == s.positions[i])
  {
  }

  /** Two borrowers have deposited and borrowed alike. */
  ghost predicate TwoOpen(s: State, j: Id, k: Id) {
    && Quiet(s, PLAIN, 1, 2_000, 2)
    && j in s.positions && Borrows(s.positions[j], 1_000, 1)
    && k in s.positions && Borrows(s.positions[k], 1_000, 1)
  }

  /** The first one has closed and was paid back. */
  ghost predicate OneEnded(t: State, j: Id, k: Id) {
    && 1 in t.collaterals && t.collaterals[1].vault == 1_000
    && j in t.positions && t.positions[j].mint == 1
    && t.positions[j].phase.Ended? && t.positions[j].collateral == 1_000
    && k in t.positions && Borrows(t.positions[k], 1_000, 1)
  }

  /** The second one's collateral is gone from the vault. */
  ghost predicate VaultIsEmpty(t: State, k: Id) {
    && 1 in t.collaterals && t.collaterals[1].vault == 0
    && k in t.positions && Borrows(t.positions[k], 1_000, 1)
  }

  lemma TwoLoans(s0: State, j: Id, k: Id) returns (ixs: seq<Instruction>, s: State)
    requires Fresh(s0) && j != k
    ensures Reached(s0, ixs, s) && TwoOpen(s, j, k)
  {
    var i0, s1 := List(s0, PLAIN, 1);
    var i1, s2 := Stake(s0, s1, PLAIN, 1);
    var i2, s3 := Borrow(s2, PLAIN, 1, 0, 0, j, 1_000, 1, PAR);
    var i3, s4 := Borrow(s3, PLAIN, 1, 1_000, 1, k, 1_000, 1, PAR);
    ReachedInThree(s0, i0, s1, i1, s2, i2, s3);
    ReachedThen(s0, [i0, i1, i2], s3, i3, s4);
    ixs, s := [i0, i1, i2] + [i3], s4;
  }

  lemma ClosingEndsOne(s: State, j: Id, k: Id, cash: u64)
    requires TwoOpen(s, j, k) && j != k && 1 <= cash
    ensures CanClose(s, j, cash) && OneEnded(Closed(s, j, cash), j, k)
  {
    CanCloseSmall(s, 2_000, 2, j, cash);
    ClosedLeaves(s, j, cash);
  }

  lemma ClaimingEmptiesVault(t: State, j: Id, k: Id, prices: Prices, rent: u64)
    requires Inv(t) && Custody(t) && OneEnded(t, j, k)
    ensures CanClaim(t, j, prices, rent)
    ensures var u := Claimed(t, j, prices, rent); Inv(u) && !Custody(u) && VaultIsEmpty(u, k)
  {
    EndedClaimIsMissing(t, j, prices, rent);
    ClaimKeepsInv(t, j, prices, rent);
  }

  lemma FirstCloses(s0: State, j: Id, k: Id, cash: u64) returns (ixs: seq<Instruction>, t: State)
    requires Fresh(s0) && j != k && 1 <= cash
    ensures Reached(s0, ixs, t) && OneEnded(t, j, k)
  {
    var s;
    ixs, s := TwoLoans(s0, j, k);
    ClosingEndsOne(s, j, k, cash);
    CloseReached(s0, ixs, s, j, cash);
    ixs, t := ixs + [ClosePosition(j, cash)], Closed(s, j, cash);
  }

  lemma ClaimIsStep(s: State, k: Id, prices: Prices, rent: u64)
    requires CanClaim(s, k, prices, rent)
    ensures Step(s, ClaimCollateral(k, prices, rent)) == Claimed(s, k, prices, rent)
  {
  }

  lemma ClaimRuns(s0: State, ixs: seq<Instruction>, s: State, k: Id, prices: Prices, rent: u64)
    requires Run(s0, ixs) == s && CanClaim(s, k, prices, rent)
    ensures Run(s0, ixs + [ClaimCollateral(k, prices, rent)]) == Claimed(s, k, prices, rent)
  {
    RunThen(s0, ixs, ClaimCollateral(k, prices, rent));
    ClaimIsStep(s, k, prices, rent);
  }

  /** The books do come apart, for any two borrowers: the first one's claim on its ended position then
      takes the second one's collateral out of the vault, at whatever prices. */
  lemma EndedClaimEmptiesTheVault(s0: State, j: Id, k: Id, prices: Prices, rent: u64)
    returns (ixs: seq<Instruction>, u: State)
    requires Fresh(s0) && j != k
    ensures Run(s0, ixs) == u && Inv(u) && !Custody(u) && VaultIsEmpty(u, k)
  {
    var t;
    ixs, t := FirstCloses(s0, j, k, 1);
    ReachedKeeps(s0, ixs, t);
    ClaimingEmptiesVault(t, j, k, prices, rent);
    ClaimRuns(s0, ixs, t, j, prices, rent);
    ixs, u := ixs + [ClaimCollateral(j, prices, rent)], Claimed(t, j, prices, rent);
  }

  // --- A withdrawal at a dust debt --------------------------------------------------------

  /** Limits and prices at which a debt of so many micro-USD is tight. */
  function DustTerms(debtUsd: nat): Terms
    requires 0 < debtUsd < DUST_USD
  {
    Terms(TightLtvBps(debtUsd), TightLtvBps(debtUsd) + 1, 0, Curve(0, 0, 0, 8_000))
  }

  const HALF := Prices(5, LAMPORTS_PER_SOL)

  lemma DustIsAffordable(debtUsd: nat)
    requires 0 < debtUsd < DUST_USD
    ensures ValidTerms(DustTerms(debtUsd)) && Affordable(DustTerms(debtUsd), 10, 18, debtUsd, HALF)
  {
    TightLtvFits(debtUsd);
    assert CollateralUsd(18, 5, 10) == 9;
    match debtUsd
    case 1 => assert MaxDebtUsd(9, 1_390) == 1;
    case 2 => assert MaxDebtUsd(9, 2_779) == 2;
    case 3 => assert MaxDebtUsd(9, 4_168) == 3;
    case 4 => assert MaxDebtUsd(9, 5_557) == 5;
    case 5 => assert MaxDebtUsd(9, 6_945) == 6;
    case _ => assert MaxDebtUsd(9, 8_334) == 7;
  }

  /** What `withdraw_excess` and `liquidate` see: 18 tokens worth 9, then 15 worth 7. */
  lemma DustNumbers(debtUsd: nat)
    requires 0 < debtUsd < DUST_USD
    ensures var terms := DustTerms(debtUsd);
      && DebtUsd(debtUsd, LAMPORTS_PER_SOL) == debtUsd
      && CanWithdraw(18, 3, 5, 10, debtUsd, terms.maxLtv)
      && CollateralUsd(15, 5, 10) == 7 && Liquidatable(7, debtUsd, terms.threshold)
      && CanRate(7, debtUsd, terms.threshold)
  {
    TightLtvFits(debtUsd);
    assert CollateralUsd(18, 5, 10) == 9 && CollateralUsd(3, 5, 10) == 1 && CollateralUsd(15, 5, 10) == 7;
    LiquidatableIff(7, debtUsd, DustTerms(debtUsd).threshold);
  }

  lemma DustWithdrawal(s: State, debtUsd: nat)
    requires 0 < debtUsd < DUST_USD && ValidTerms(DustTerms(debtUsd))
    requires Quiet(s, DustTerms(debtUsd), 10, 18, debtUsd)
    requires 1 in s.positions && Borrows(s.positions[1], 18, debtUsd)
    ensures CanWithdrawAt(s, 1, 3, HALF, 0)
    ensures var t := Withdrawn(s, 1, 3, HALF, 0);
      1 in t.positions && Borrows(t.positions[1], 15, debtUsd) && Quiet(t, DustTerms(debtUsd), 10, 15, debtUsd)
  {
    DustNumbers(debtUsd);
  }

  lemma DustLiquidation(t: State, debtUsd: nat)
    requires 0 < debtUsd < DUST_USD && Quiet(t, DustTerms(debtUsd), 10, 15, debtUsd)
    requires 1 in t.positions && Borrows(t.positions[1], 15, debtUsd)
    ensures CanLiquidate(t, 1, HALF, 0, 0)
  {
    DustNumbers(debtUsd);
  }

  /** The dust exception is real: for every debt of 1 to 6 micro-USD a run reaches a position whose excess
      collateral may be withdrawn, and which is liquidatable straight afterwards at the same prices. */
  lemma DustWithdrawalIsLiquidatable(s0: State, debtUsd: nat) returns (ixs: seq<Instruction>, s: State)
    requires Fresh(s0) && 0 < debtUsd < DUST_USD
    ensures Run(s0, ixs) == s && 1 in s.positions && s.positions[1].loan == Loan(debtUsd, 0, 0)
    ensures DebtUsd(debtUsd, HALF.sol) == debtUsd
    ensures CanWithdrawAt(s, 1, 3, HALF, 0) && CanLiquidate(Withdrawn(s, 1, 3, HALF, 0), 1, HALF, 0, 0)
  {
    DustIsAffordable(debtUsd);
    DustNumbers(debtUsd);
    var terms := DustTerms(debtUsd);
    var i0, s1 := List(s0, terms, 10);
    var i1, s2 := Stake(s0, s1, terms, 10);
    var i2, s3 := Borrow(s2, terms, 10, 0, 0, 1, 18, debtUsd, HALF);
    DustWithdrawal(s3, debtUsd);
    DustLiquidation(Withdrawn(s3, 1, 3, HALF, 0), debtUsd);
    ReachedInThree(s0, i0, s1, i1, s2, i2, s3);
    ixs, s := [i0, i1, i2], s3;
  }
}
