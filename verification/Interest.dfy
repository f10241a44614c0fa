/** The borrow rate of rise-cdp (a kinked curve over utilization) and the two ways it accrues:
    the crank, which always advances the accrual slot, and the accrual inside the other handlers,
    which leaves the slot alone while the interest still rounds to zero. */
module Interest {
  import opened Arithmetic

  const SLOTS_PER_YEAR: nat := 78_840_000

  /** Annual rates in basis points; `optimal` is the utilization at the kink. */
  datatype Curve = Curve(base: nat, slope1: nat, slope2: nat, optimal: nat)

  datatype Loan = Loan(principal: nat, interest: nat, lastSlot: nat)

  function Ceiling(stakingSupply: nat, multiplierBps: nat): nat { stakingSupply * multiplierBps / BPS }

  function Utilization(minted: nat, ceiling: nat): nat {
    if ceiling == 0 then BPS else Min(minted * BPS / ceiling, BPS)
  }

  function RateBps(c: Curve, utilization: nat): nat {
    if utilization <= c.optimal then
      c.base + if c.optimal == 0 then 0 else Part(c.slope1, utilization, c.optimal)
    else
      var excess, range := utilization - c.optimal, BPS - c.optimal;
      c.base + c.slope1 + if range <= 0 then c.slope2 else Part(c.slope2, excess, range)
  }

  function InterestFor(principal: nat, rateBps: nat, slots: nat): nat {
    principal * rateBps * slots / BPS / SLOTS_PER_YEAR
  }

  function Cranked(l: Loan, rateBps: nat, slot: nat): Loan {
    if slot <= l.lastSlot then l
    else l.(interest := l.interest + InterestFor(l.principal, rateBps, slot - l.lastSlot), lastSlot := slot)
  }

  function Accrued(l: Loan, rateBps: nat, slot: nat): Loan {
    if slot <= l.lastSlot then l
    else
      var due := InterestFor(l.principal, rateBps, slot - l.lastSlot);
      if due == 0 then l else l.(interest := l.interest + due, lastSlot := slot)
  }

  // --- The curve --------------------------------------------------------------

  lemma BelowKink(c: Curve, utilization: nat)
    requires utilization <= c.optimal
    ensures c.base <= RateBps(c, utilization) <= c.base + c.slope1
    ensures utilization == c.optimal && 0 < c.optimal ==> RateBps(c, utilization) == c.base + c.slope1
  {
    if 0 < c.optimal {
      ShareAtMost(c.slope1, utilization, c.optimal);
    }
  }

  lemma AboveKink(c: Curve, utilization: nat)
    requires c.optimal < utilization <= BPS
    ensures c.base + c.slope1 <= RateBps(c, utilization) <= c.base + c.slope1 + c.slope2
    ensures utilization == BPS ==> RateBps(c, utilization) == c.base + c.slope1 + c.slope2
  {
    ShareAtMost(c.slope2, utilization - c.optimal, BPS - c.optimal);
  }

  /** The rate stays in its band, meets itself at the kink, and above the kink the range it
      divides by is never zero. */
  lemma RateBand(c: Curve, utilization: nat)
    requires utilization <= BPS && c.optimal <= BPS
    ensures c.base <= RateBps(c, utilization) <= c.base + c.slope1 + c.slope2
    ensures 0 < c.optimal ==> RateBps(c, c.optimal) == c.base + c.slope1
    ensures c.optimal < utilization ==> 0 < BPS - c.optimal && c.base + c.slope1 <= RateBps(c, utilization)
  {
    BelowKink(c, c.optimal);
    if utilization <= c.optimal {
      BelowKink(c, utilization);
    } else {
      AboveKink(c, utilization);
    }
  }

  lemma RateMonotone(c: Curve, u: nat, v: nat)
    requires u <= v <= BPS && c.optimal <= BPS
    ensures RateBps(c, u) <= RateBps(c, v)
  {
    if v <= c.optimal {
      if 0 < c.optimal {
        PartMonotone(c.slope1, u, v, c.optimal);
      }
    } else if u <= c.optimal {
      BelowKink(c, u);
      AboveKink(c, v);
    } else {
      PartMonotone(c.slope2, u - c.optimal, v - c.optimal, BPS - c.optimal);
    }
  }

  /** More debt outstanding never makes the same loan cheaper. */
  lemma InterestGrowsWithDebt(c: Curve, ceiling: nat, minted: nat, minted': nat, principal: nat, slots: nat)
    requires minted <= minted' && c.optimal <= BPS
    ensures var u, v := Utilization(minted, ceiling), Utilization(minted', ceiling);
      InterestFor(principal, RateBps(c, u), slots) <= InterestFor(principal, RateBps(c, v), slots)
  {
    var u, v := Utilization(minted, ceiling), Utilization(minted', ceiling);
    if 0 < ceiling {
      FloorMonotone(minted * BPS, minted' * BPS, ceiling);
    }
    RateMonotone(c, u, v);
    DearerIsMore(principal, RateBps(c, u), RateBps(c, v), slots);
  }

  lemma DearerIsMore(principal: nat, low: nat, high: nat, slots: nat)
    requires low <= high
    ensures InterestFor(principal, low, slots) <= InterestFor(principal, high, slots)
  {
    MulMonotone(low, high, principal);
    MulMonotone(principal * low, principal * high, slots);
    FloorMonotone(principal * low * slots, principal * high * slots, BPS);
    FloorMonotone(principal * low * slots / BPS, principal * high * slots / BPS, SLOTS_PER_YEAR);
  }

  // --- The curve in plain numbers -----------------------------------------------

  /** Debt against ceiling, in basis points: full without a ceiling and from the ceiling on. */
  ghost predicate IsUtilization(u: int, minted: nat, ceiling: nat) {
    if ceiling <= minted then u == 10_000 else IsFloor(u, minted * 10_000, ceiling)
  }

  /** Linear up to the kink, and linear again, from what was reached there, above it. */
  ghost predicate IsRate(rate: int, c: Curve, u: nat) {
    if u <= c.optimal then
      if c.optimal == 0 then rate == c.base else IsFloor(rate - c.base, c.slope1 * u, c.optimal)
    else
      IsFloor(rate - c.base - c.slope1, c.slope2 * (u - c.optimal), 10_000 - c.optimal)
  }

  /** Interest per slot of a 78,840,000-slot year, at so many basis points a year. */
  ghost predicate IsInterest(due: int, principal: nat, rateBps: nat, slots: nat) {
    IsFloor(due, principal * rateBps * slots, 10_000 * 78_840_000)
  }

  lemma CeilingIs(stakingSupply: nat, multiplierBps: nat)
    ensures IsFloor(Ceiling(stakingSupply, multiplierBps), stakingSupply * multiplierBps, 10_000)
  {
    FloorIs(stakingSupply * multiplierBps, BPS);
  }

  lemma UtilizationIs(minted: nat, ceiling: nat)
    ensures IsUtilization(Utilization(minted, ceiling), minted, ceiling)
  {
    if 0 < ceiling {
      FloorAdjoint(BPS, minted * BPS, ceiling);
      FloorIs(minted * BPS, ceiling);
    }
  }

  /** The rate interpolates linearly on both sides of the kink, each time rounded down. */
  lemma RateIs(c: Curve, u: nat)
    requires u <= BPS && c.optimal <= BPS
    ensures IsRate(RateBps(c, u), c, u)
  {
    if u <= c.optimal {
      if 0 < c.optimal { FloorIs(c.slope1 * u, c.optimal); }
    } else {
      FloorIs(c.slope2 * (u - c.optimal), BPS - c.optimal);
    }
  }

  lemma UtilizationUnique(u: nat, minted: nat, ceiling: nat)
    requires IsUtilization(u, minted, ceiling)
    ensures u == Utilization(minted, ceiling) <= BPS
  {
    if 0 < ceiling {
      FloorAdjoint(BPS, minted * BPS, ceiling);
      if minted < ceiling { FloorUnique(u, minted * BPS, ceiling); }
    }
  }

  lemma RateUnique(rate: nat, c: Curve, u: nat)
    requires IsRate(rate, c, u) && u <= BPS && c.optimal <= BPS
    ensures rate == RateBps(c, u)
  {
    if u <= c.optimal {
      if 0 < c.optimal { FloorUnique(rate - c.base, c.slope1 * u, c.optimal); }
    } else {
      FloorUnique(rate - c.base - c.slope1, c.slope2 * (u - c.optimal), BPS - c.optimal);
    }
  }

  // --- Accrual ----------------------------------------------------------------

  lemma NestedFloor(n: nat, a: nat, b: nat)
    requires a > 0 && b > 0
    ensures a * b > 0 && n / a / b == n / (a * b)
  {
    assert a * b > 0 by { MulMonotone(1, b, a); }
    var q := n / a / b;
    FloorAdjoint(q, n / a, b);
    FloorAdjoint(q * b, n, a);
    assert q * b * a == q * (a * b);
    FloorAdjoint(q, n, a * b);
    FloorAdjoint(q + 1, n / a, b);
    FloorAdjoint((q + 1) * b, n, a);
    assert (q + 1) * b * a == (q + 1) * (a * b);
    FloorAdjoint(q + 1, n, a * b);
  }

  /** The two divisions of the programs round down once: to the interest for the year's share. */
  lemma InterestIs(principal: nat, rateBps: nat, slots: nat)
    ensures IsInterest(InterestFor(principal, rateBps, slots), principal, rateBps, slots)
  {
    NestedFloor(principal * rateBps * slots, BPS, SLOTS_PER_YEAR);
    FloorIs(principal * rateBps * slots, BPS * SLOTS_PER_YEAR);
  }

  /** A year at a rate costs that many basis points of the principal. */
  lemma YearOfInterest(principal: nat, rateBps: nat)
    ensures IsFloor(InterestFor(principal, rateBps, 78_840_000), principal * rateBps, 10_000)
  {
    NestedFloor(principal * rateBps * SLOTS_PER_YEAR, SLOTS_PER_YEAR, BPS);
    NestedFloor(principal * rateBps * SLOTS_PER_YEAR, BPS, SLOTS_PER_YEAR);
    assert principal * rateBps * SLOTS_PER_YEAR / SLOTS_PER_YEAR == principal * rateBps;
    FloorIs(principal * rateBps, BPS);
  }

  /** What a crank adds, and that it always moves the slot. */
  lemma CrankCharges(l: Loan, rateBps: nat, slot: nat)
    ensures var m := Cranked(l, rateBps, slot);
      && m == l.(interest := m.interest, lastSlot := Max(l.lastSlot, slot))
      && (l.lastSlot < slot ==> IsInterest(m.interest - l.interest, l.principal, rateBps, slot - l.lastSlot))
      && (slot <= l.lastSlot ==> m == l)
  {
    if l.lastSlot < slot { InterestIs(l.principal, rateBps, slot - l.lastSlot); }
  }

  /** The other handlers charge the same, and move the slot only together with a charge. */
  lemma AccrualCharges(l: Loan, rateBps: nat, slot: nat)
    ensures var m := Accrued(l, rateBps, slot);
      && m == l.(interest := m.interest, lastSlot := if m.interest == l.interest then l.lastSlot else slot)
      && (l.lastSlot < slot ==> IsInterest(m.interest - l.interest, l.principal, rateBps, slot - l.lastSlot))
      && (slot <= l.lastSlot ==> m == l)
  {
    if l.lastSlot < slot { InterestIs(l.principal, rateBps, slot - l.lastSlot); }
  }

  /** Splitting a span in two loses at most one unit, and never gains one. */
  lemma InterestSplits(principal: nat, rateBps: nat, d: nat, e: nat)
    ensures var f := (slots: nat) => InterestFor(principal, rateBps, slots);
      f(d) + f(e) <= f(d + e) <= f(d) + f(e) + 1
  {
    var k, year := principal * rateBps, BPS * SLOTS_PER_YEAR;
    NestedFloor(k * d, BPS, SLOTS_PER_YEAR);
    NestedFloor(k * e, BPS, SLOTS_PER_YEAR);
    NestedFloor(k * (d + e), BPS, SLOTS_PER_YEAR);
    assert k * (d + e) == k * d + k * e;
    FloorSuperadditive(k * d, k * e, year);
  }

  function CrankAll(l: Loan, rateBps: nat, slots: seq<nat>): Loan
    decreases |slots|
  {
    if slots == [] then l else CrankAll(Cranked(l, rateBps, slots[0]), rateBps, slots[1..])
  }

  function AccrueAll(l: Loan, rateBps: nat, slots: seq<nat>): Loan
    decreases |slots|
  {
    if slots == [] then l else AccrueAll(Accrued(l, rateBps, slots[0]), rateBps, slots[1..])
  }

  /** How many of the calls advance the accrual slot. */
  function Advances(l: Loan, rateBps: nat, slots: seq<nat>): nat
    decreases |slots|
  {
    if slots == [] then 0
    else
      var m := Accrued(l, rateBps, slots[0]);
      (if m.lastSlot == l.lastSlot then 0 else 1) + Advances(m, rateBps, slots[1..])
  }

  predicate Rising(from: nat, slots: seq<nat>)
    decreases |slots|
  {
    slots == [] || (from < slots[0] && Rising(slots[0], slots[1..]))
  }

  function End(from: nat, slots: seq<nat>): nat {
    if slots == [] then from else slots[|slots| - 1]
  }

  lemma {:induction false} RisingEnd(from: nat, slots: seq<nat>)
    requires Rising(from, slots)
    ensures from <= End(from, slots)
    ensures slots != [] ==> End(from, slots) == End(slots[0], slots[1..])
    decreases |slots|
  {
    if slots == [] {
    } else {
      RisingEnd(slots[0], slots[1..]);
    }
  }

  lemma {:induction false} CrankAgainstSingle(l: Loan, rateBps: nat, slots: seq<nat>)
    requires slots != [] && Rising(l.lastSlot, slots)
    ensures l.lastSlot <= End(l.lastSlot, slots)
    ensures var gain := CrankAll(l, rateBps, slots).interest - l.interest;
      var single := InterestFor(l.principal, rateBps, End(l.lastSlot, slots) - l.lastSlot);
      gain <= single <= gain + |slots| - 1
    decreases |slots|
  {
    RisingEnd(l.lastSlot, slots);
    if |slots| == 1 {
    } else {
      RisingEnd(slots[0], slots[1..]);
      var m := Cranked(l, rateBps, slots[0]);
      CrankAgainstSingle(m, rateBps, slots[1..]);
      InterestSplits(l.principal, rateBps, slots[0] - l.lastSlot, End(m.lastSlot, slots[1..]) - slots[0]);
    }
  }

  lemma {:induction false} LazyAgainstSingle(l: Loan, rateBps: nat, slots: seq<nat>, start: nat)
    requires Rising(start, slots) && l.lastSlot <= start
    requires InterestFor(l.principal, rateBps, start - l.lastSlot) == 0
    ensures l.lastSlot <= End(start, slots)
    ensures var gain := AccrueAll(l, rateBps, slots).interest - l.interest;
      var single := InterestFor(l.principal, rateBps, End(start, slots) - l.lastSlot);
      gain <= single <= gain + Advances(l, rateBps, slots)
    decreases |slots|
  {
    RisingEnd(start, slots);
    if slots == [] {
    } else {
      RisingEnd(slots[0], slots[1..]);
      var m := Accrued(l, rateBps, slots[0]);
      LazyAgainstSingle(m, rateBps, slots[1..], slots[0]);
      if m.lastSlot != l.lastSlot {
        InterestSplits(l.principal, rateBps, slots[0] - l.lastSlot, End(slots[0], slots[1..]) - slots[0]);
      }
    }
  }

  lemma {:induction false} CrankAgainstLazy(c: Loan, l: Loan, rateBps: nat, slots: seq<nat>)
    requires c.principal == l.principal && l.lastSlot <= c.lastSlot && c.interest <= l.interest
    requires Rising(c.lastSlot, slots)
    ensures CrankAll(c, rateBps, slots).interest <= AccrueAll(l, rateBps, slots).interest
    decreases |slots|
  {
    if slots == [] {
    } else {
      InterestSplits(c.principal, rateBps, slots[0] - c.lastSlot, c.lastSlot - l.lastSlot);
      CrankAgainstLazy(Cranked(c, rateBps, slots[0]), Accrued(l, rateBps, slots[0]), rateBps, slots[1..]);
    }
  }

  /** Accrual against its one-shot form: at a fixed principal and rate, over any rising sequence
      of calls, crank <= lazy <= single; the crank loses less than one unit per call after the
      first, the lazy form at most one per call that advances the slot. */
  lemma AccrualAgainstSingle(l: Loan, rateBps: nat, slots: seq<nat>)
    requires slots != [] && Rising(l.lastSlot, slots)
    ensures l.lastSlot <= slots[|slots| - 1]
    ensures var single := InterestFor(l.principal, rateBps, slots[|slots| - 1] - l.lastSlot);
      var crank := CrankAll(l, rateBps, slots).interest - l.interest;
      var lazy := AccrueAll(l, rateBps, slots).interest - l.interest;
      && crank <= lazy <= single
      && single <= crank + |slots| - 1
      && single <= lazy + Advances(l, rateBps, slots)
  {
    CrankAgainstSingle(l, rateBps, slots);
    assert InterestFor(l.principal, rateBps, 0) == 0;
    LazyAgainstSingle(l, rateBps, slots, l.lastSlot);
    CrankAgainstLazy(l, l, rateBps, slots);
  }

  /** Accrual against the clock: however often it is called, what is charged over a span stays within
      as many units of the exact interest as there were calls, and never above it. */
  lemma AccrualAgainstTime(l: Loan, rateBps: nat, slots: seq<nat>)
    requires slots != [] && Rising(l.lastSlot, slots)
    ensures var exact := l.principal * rateBps * (slots[|slots| - 1] - l.lastSlot);
      var crank := CrankAll(l, rateBps, slots).interest - l.interest;
      var lazy := AccrueAll(l, rateBps, slots).interest - l.interest;
      && crank * (10_000 * 78_840_000) <= lazy * (10_000 * 78_840_000) <= exact
      && exact < (crank + |slots|) * (10_000 * 78_840_000)
      && exact < (lazy + Advances(l, rateBps, slots) + 1) * (10_000 * 78_840_000)
  {
    AccrualAgainstSingle(l, rateBps, slots);
    InterestIs(l.principal, rateBps, slots[|slots| - 1] - l.lastSlot);
  }
}
