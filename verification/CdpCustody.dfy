/** Collateral conservation, per mint, over whole runs of the CDP engine. */
module CdpCustody {
  import opened Arithmetic
  import opened MapSums
  import opened Cdp
  import opened CdpInvariants
  import opened CdpSteps

  /** No entitlement counter is below what one position holds: subtracting it never saturates. */
  lemma HoldingIsEntitled(s: State, k: Id)
    requires Custody(s) && Shaped(s) && k in s.positions
    ensures var p := s.positions[k];
      !p.phase.Ended? ==> p.collateral <= s.collaterals[p.mint].entitlements
  {
    var m := s.positions[k].mint;
    assert MintInCustody(s, m);
    SumAtLeast(s.positions, HeldOf(m), k);
  }

  lemma OpenKeepsCustody(s: State, k: Id, mint: Id, tokens: u64, amount: u64, held: u64, prices: Prices, slot: u64)
    requires Custody(s) && CanOpen(s, k, mint, tokens, amount, held, prices)
    ensures Custody(Opened(s, k, mint, tokens, amount, prices, slot))
  {
    WriteKeepsCustody(s, Opened(s, k, mint, tokens, amount, prices, slot), k, mint);
  }

  lemma AddKeepsCustody(s: State, k: Id, amount: u64, held: u64, prices: Prices)
    requires Custody(s) && CanAdd(s, k, amount, held, prices)
    ensures Custody(Added(s, k, amount, prices))
  {
    WriteKeepsCustody(s, Added(s, k, amount, prices), k, s.positions[k].mint);
  }

  lemma WithdrawKeepsCustody(s: State, k: Id, amount: u64, prices: Prices, slot: u64)
    requires Custody(s) && Shaped(s) && CanWithdrawAt(s, k, amount, prices, slot)
    ensures Custody(Withdrawn(s, k, amount, prices, slot))
  {
    HoldingIsEntitled(s, k);
    WriteKeepsCustody(s, Withdrawn(s, k, amount, prices, slot), k, s.positions[k].mint);
  }

  lemma CloseKeepsCustody(s: State, k: Id, held: u64)
    requires Custody(s) && Shaped(s) && CanClose(s, k, held)
    ensures Custody(Closed(s, k, held))
  {
    HoldingIsEntitled(s, k);
    WriteKeepsCustody(s, Closed(s, k, held), k, s.positions[k].mint);
  }

  lemma LiquidateKeepsCustody(s: State, k: Id, prices: Prices, sol: u64, rent: u64)
    requires Custody(s) && Shaped(s) && CanLiquidate(s, k, prices, sol, rent)
    ensures Custody(Liquidated(s, k, prices, sol, rent))
  {
    HoldingIsEntitled(s, k);
    WriteKeepsCustody(s, Liquidated(s, k, prices, sol, rent), k, s.positions[k].mint);
  }

  /** Borrowing, accruing, repaying and claiming rewards move no collateral; a full repayment
      leaves the collateral to be claimed. */
  lemma DebtKeepsCustody(s: State, t: State, k: Id)
    requires Custody(s) && Shaped(s) && k in s.positions && Writes(s, t, k) && t.collaterals == s.collaterals
    requires var p, q := s.positions[k], t.positions[k];
      q.mint == p.mint && q.collateral == p.collateral && (q.phase.Ended? <==> p.phase.Ended?)
    ensures Custody(t)
  {
    WriteKeepsCustody(s, t, k, s.positions[k].mint);
  }

  /** Instructions that move neither a position nor a vault. */
  lemma OthersKeepCustody(s: State, t: State)
    requires Custody(s) && t.positions == s.positions
    requires t.collaterals.Keys == s.collaterals.Keys
    requires forall m :: m in s.collaterals ==>
      var c, d := s.collaterals[m], t.collaterals[m];
      d.entitlements == c.entitlements && d.vault + d.seized == c.vault + c.seized && d.settled == c.settled
    ensures Custody(t)
  {
    forall m | m in t.collaterals ensures MintInCustody(t, m) {
      assert MintInCustody(s, m);
    }
  }

  lemma InitializeKeepsCustody(s: State, mint: Id, terms: Terms, unit: pos)
    requires Custody(s) && Shaped(s) && mint !in s.collaterals
    ensures Custody(s.(collaterals := s.collaterals[mint := Collateral(true, terms, unit, 0, 0, 0, 0)]))
  {
    var t := s.(collaterals := s.collaterals[mint := Collateral(true, terms, unit, 0, 0, 0, 0)]);
    SumZero(s.positions, HeldOf(mint));
    forall m | m in t.collaterals ensures MintInCustody(t, m) {
      assert m in s.collaterals ==> MintInCustody(s, m);
    }
  }

  lemma DropKeepsCustody(s: State, t: State, k: Id, mint: Id)
    requires Custody(s) && k in s.positions && mint == s.positions[k].mint
    requires mint in s.collaterals && mint in t.collaterals
    requires t.positions == s.positions - {k} && t.collaterals == s.collaterals[mint := t.collaterals[mint]]
    requires var c, d := s.collaterals[mint], t.collaterals[mint];
      && c.entitlements - d.entitlements == HeldOf(mint)(s.positions[k]) == c.vault - d.vault + d.settled - c.settled
      && d.seized == c.seized
    ensures Custody(t)
  {
    forall m | m in t.collaterals ensures MintInCustody(t, m) {
      assert MintInCustody(s, m);
      SumDrop(s.positions, HeldOf(m), k);
    }
  }

  lemma ClaimKeepsCustody(s: State, k: Id, prices: Prices, rent: u64)
    requires Custody(s) && Shaped(s) && CanClaim(s, k, prices, rent)
    requires s.positions[k].phase.AwaitingClaim? || s.positions[k].collateral == 0
    ensures Custody(Claimed(s, k, prices, rent))
  {
    HoldingIsEntitled(s, k);
    DropKeepsCustody(s, Claimed(s, k, prices, rent), k, s.positions[k].mint);
  }

  /** A claim keeps the books if and only if the position was fully repaid, or records no collateral:
      an ended position still records collateral that was settled before. */
  lemma ClaimKeepsCustodyIff(s: State, k: Id, prices: Prices, rent: u64)
    requires Custody(s) && Shaped(s) && CanClaim(s, k, prices, rent)
    ensures Custody(Claimed(s, k, prices, rent)) <==>
      s.positions[k].phase.AwaitingClaim? || s.positions[k].collateral == 0
  {
    var p, t := s.positions[k], Claimed(s, k, prices, rent);
    if p.phase.AwaitingClaim? || p.collateral == 0 {
      ClaimKeepsCustody(s, k, prices, rent);
    } else if Custody(t) {
      assert MintInCustody(s, p.mint) && MintInCustody(t, p.mint);
      SumDrop(s.positions, HeldOf(p.mint), k);
      assert false;
    }
  }

  /** The other side, on every ended position whose recorded collateral the vault could still pay: the
      claim is accepted and pays it although the position holds nothing, so what is paid is missing from
      what the open and repaid positions hold. */
  lemma EndedClaimIsMissing(s: State, k: Id, prices: Prices, rent: u64)
    requires Inv(s) && Custody(s) && k in s.positions && s.positions[k].phase.Ended?
    requires 0 < s.positions[k].collateral <= CollateralFor(s, k).vault
    ensures CanClaim(s, k, prices, rent) && !Custody(Claimed(s, k, prices, rent))
    ensures var p, t := s.positions[k], Claimed(s, k, prices, rent);
      && HeldOf(p.mint)(p) == 0 && Sum(t.positions, HeldOf(p.mint)) == Sum(s.positions, HeldOf(p.mint))
      && t.collaterals[p.mint].vault == s.collaterals[p.mint].vault - p.collateral
  {
    ClaimKeepsCustodyIff(s, k, prices, rent);
    SumDrop(s.positions, HeldOf(s.positions[k].mint), k);
  }

  // --- Runs -----------------------------------------------------------------------

  /** Claims are made on repaid positions, or on positions that record no collateral. */
  predicate Regular(s: State, ix: Instruction) {
    ix.ClaimCollateral? && ix.position in s.positions ==>
      s.positions[ix.position].phase.AwaitingClaim? || s.positions[ix.position].collateral == 0
  }

  /** On a position's debt only. */
  predicate OnDebt(ix: Instruction) {
    ix.BorrowMore? || ix.AccrueInterest? || ix.RepayDebt? || ix.RepayDebtSpl? || ix.RepayDebtRiseSol?
  }

  lemma DebtStepKeepsCustody(s: State, ix: Instruction)
    requires Shaped(s) && Custody(s) && OnDebt(ix) && AcceptsOnPosition(s, ix)
    ensures Custody(ApplyOnPosition(s, ix))
  {
    DebtKeepsCustody(s, ApplyOnPosition(s, ix), ix.position);
  }

  /** Moving collateral into or out of a position. */
  lemma MovingStepKeepsCustody(s: State, ix: Instruction)
    requires Shaped(s) && Custody(s) && OnPosition(ix) && !OnDebt(ix) && AcceptsOnPosition(s, ix)
    ensures Custody(ApplyOnPosition(s, ix))
  {
    match ix
    case OpenPosition(k, mint, tokens, amount, held, prices, slot) =>
      OpenKeepsCustody(s, k, mint, tokens, amount, held, prices, slot);
    case AddCollateral(k, amount, held, prices) => AddKeepsCustody(s, k, amount, held, prices);
    case WithdrawExcess(k, amount, prices, slot) => WithdrawKeepsCustody(s, k, amount, prices, slot);
    case ClosePosition(k, held) => CloseKeepsCustody(s, k, held);
    case Liquidate(k, prices, sol, rent) => LiquidateKeepsCustody(s, k, prices, sol, rent);
  }

  lemma RedeemKeepsCustody(s: State, mint: Id, amount: u64, prices: Prices, sol: u64, rent: u64)
    requires Custody(s) && CanSeize(s, mint, amount, prices, sol, rent)
    ensures Custody(Seized(s, mint, amount, prices, sol, rent))
  {
    OthersKeepCustody(s, Seized(s, mint, amount, prices, sol, rent));
  }

  lemma OtherStepKeepsCustody(s: State, ix: Instruction)
    requires Custody(s) && !OnPosition(ix) && AcceptsOnProtocol(s, ix)
    requires !ix.ClaimCollateral? && !ix.InitializeCollateral? && !ix.ClaimBorrowRewards? && !ix.RedeemCollateral?
    ensures Custody(ApplyOnProtocol(s, ix))
  {
    OthersKeepCustody(s, ApplyOnProtocol(s, ix));
  }

  lemma ProtocolStepKeepsCustody(s: State, ix: Instruction)
    requires Shaped(s) && Custody(s) && Regular(s, ix) && !OnPosition(ix) && AcceptsOnProtocol(s, ix)
    ensures Custody(ApplyOnProtocol(s, ix))
  {
    match ix
    case ClaimCollateral(k, prices, rent) => ClaimKeepsCustody(s, k, prices, rent);
    case InitializeCollateral(mint, terms, unit) => InitializeKeepsCustody(s, mint, terms, unit);
    case ClaimBorrowRewards(k) => DebtKeepsCustody(s, RewardsClaimed(s, k), k);
    case RedeemCollateral(mint, amount, prices, sol, rent) => RedeemKeepsCustody(s, mint, amount, prices, sol, rent);
    case _ => OtherStepKeepsCustody(s, ix);
  }

  lemma StepKeepsCustody(s: State, ix: Instruction)
    requires Inv(s) && Custody(s) && Regular(s, ix)
    ensures Custody(Step(s, ix))
  {
    if Accepts(s, ix) {
      if OnPosition(ix) {
        if OnDebt(ix) { DebtStepKeepsCustody(s, ix); } else { MovingStepKeepsCustody(s, ix); }
      } else {
        ProtocolStepKeepsCustody(s, ix);
      }
    }
  }

  predicate RegularRun(s: State, ixs: seq<Instruction>)
    decreases |ixs|
  {
    ixs == [] || (Regular(s, ixs[0]) && RegularRun(Step(s, ixs[0]), ixs[1..]))
  }

  lemma {:induction false} RunKeepsCustody(s: State, ixs: seq<Instruction>)
    requires Inv(s) && Custody(s) && RegularRun(s, ixs)
    ensures Custody(Run(s, ixs))
    decreases |ixs|
  {
    if ixs == [] {
    } else {
      StepKeepsInv(s, ixs[0]);
      StepKeepsCustody(s, ixs[0]);
      RunKeepsCustody(Step(s, ixs[0]), ixs[1..]);
    }
  }
}
