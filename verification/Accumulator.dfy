/** The reward accumulator shared by LP gauges (rise-rewards) and borrow rewards (rise-cdp):
    a global `reward_per_token` and, per account, a floored `reward_debt`.

    A book is solvent up to a rounding slack of less than one base unit for every
    change of an account's weight; claiming at an unchanged weight is exact. */
module Accumulator {
  import opened Arithmetic
  import opened MapSums

  const REWARD_SCALE: nat := 1_000_000_000_000

  /** One account: LP tokens (or debt principal), `reward_debt`, `pending_rewards`. */
  datatype Share = Share(weight: nat, debt: nat, pending: nat)

  /** `emitted`, `paid` and `changes` (of weights) are running totals of the history. */
  datatype Book = Book(rate: nat, shares: map<Id, Share>, emitted: nat, paid: nat, changes: nat)

  const NO_SHARE := Share(0, 0, 0)

  function ShareOf(shares: map<Id, Share>, k: Id): Share {
    if k in shares then shares[k] else NO_SHARE
  }

  /** What a weight would have earned had it been there since the rate was zero. */
  function Entitled(weight: nat, rate: nat): nat { weight * rate / REWARD_SCALE }

  /** What the account earned since its debt was last synchronised. */
  function Earned(sh: Share, rate: nat): int { Entitled(sh.weight, rate) - sh.debt }

  /** Settle, then synchronise the debt for a new weight. */
  function Settled(sh: Share, rate: nat, weight: nat): Share
    requires 0 <= Earned(sh, rate)
  {
    Share(weight, Entitled(weight, rate), sh.pending + Earned(sh, rate))
  }

  /** Everything owed to an account, scaled, including what rounding still withholds. */
  ghost function Owed(rate: nat): Share -> int {
    (sh: Share) => REWARD_SCALE * sh.pending + sh.weight * rate - REWARD_SCALE * sh.debt
  }

  ghost const Weight: Share -> int := (sh: Share) => sh.weight

  ghost function Liability(b: Book): int {
    REWARD_SCALE * b.paid + Sum(b.shares, Owed(b.rate))
  }

  /** An account is owed a non-negative amount, and never more than was ever emitted. */
  ghost predicate FairShare(sh: Share, rate: nat, emitted: nat) {
    REWARD_SCALE * sh.debt <= sh.weight * rate < REWARD_SCALE * (sh.debt + 1 + emitted)
  }

  ghost predicate Fair(b: Book) {
    forall k :: k in b.shares ==> FairShare(b.shares[k], b.rate, b.emitted)
  }

  ghost predicate Solvent(b: Book) {
    Liability(b) <= REWARD_SCALE * b.emitted + (REWARD_SCALE - 1) * b.changes
  }

  ghost predicate Sound(b: Book) { Fair(b) && Solvent(b) }

  // --- Operations -------------------------------------------------------------

  function Reweigh(b: Book, k: Id, weight: nat): Book
    requires 0 <= Earned(ShareOf(b.shares, k), b.rate)
  {
    var sh := ShareOf(b.shares, k);
    b.(shares := b.shares[k := Settled(sh, b.rate, weight)],
       changes := b.changes + if weight == sh.weight then 0 else 1)
  }

  /** Settle, pay everything pending, synchronise at the same weight. */
  function Collect(b: Book, k: Id): Book
    requires k in b.shares && 0 <= Earned(b.shares[k], b.rate)
  {
    var sh := Settled(b.shares[k], b.rate, b.shares[k].weight);
    b.(shares := b.shares[k := sh.(pending := 0)], paid := b.paid + sh.pending)
  }

  /** Close an account, paying at most what it has coming. */
  function Evict(b: Book, k: Id, payout: nat): Book {
    b.(shares := b.shares - {k}, paid := b.paid + payout)
  }

  function Emit(b: Book, amount: nat, total: nat): Book
    requires total > 0
  {
    b.(rate := b.rate + amount * REWARD_SCALE / total, emitted := b.emitted + amount)
  }

  // --- Per account ------------------------------------------------------------

  /** Settlement never underflows, and no account ever has more coming than was emitted:
      so the narrowing to 64 bits loses nothing. */
  lemma EarnedBounds(sh: Share, rate: nat, emitted: nat)
    requires FairShare(sh, rate, emitted)
    ensures 0 <= Earned(sh, rate) <= emitted
    ensures sh.weight == 0 ==> sh.debt == 0
  {
    FloorAdjoint(sh.debt, sh.weight * rate, REWARD_SCALE);
    FloorAdjoint(sh.debt + 1 + emitted, sh.weight * rate, REWARD_SCALE);
  }

  lemma NoShareIsFair(rate: nat, emitted: nat)
    ensures FairShare(NO_SHARE, rate, emitted)
    ensures Owed(rate)(NO_SHARE) == 0
  {
  }

  lemma SettledIsFair(sh: Share, rate: nat, weight: nat, emitted: nat)
    requires 0 <= Earned(sh, rate)
    ensures FairShare(Settled(sh, rate, weight), rate, emitted)
    ensures FairShare(Settled(sh, rate, weight).(pending := 0), rate, emitted)
  {
    FloorBounds(weight * rate, REWARD_SCALE);
  }

  /** Resynchronising can favour the account by less than one base unit, and not at all
      when its weight is unchanged. */
  lemma SettledOwes(sh: Share, rate: nat, weight: nat)
    requires 0 <= Earned(sh, rate)
    ensures var gain := Owed(rate)(Settled(sh, rate, weight)) - Owed(rate)(sh);
      gain <= REWARD_SCALE - 1 && (weight == sh.weight ==> gain == 0)
  {
    FloorBounds(weight * rate, REWARD_SCALE);
    FloorBounds(sh.weight * rate, REWARD_SCALE);
  }

  // --- The book ---------------------------------------------------------------

  /** What `k` adds to the liability: absent accounts are owed nothing. */
  lemma OwedAt(b: Book, k: Id)
    ensures At(b.shares, Owed(b.rate), k) == Owed(b.rate)(ShareOf(b.shares, k))
  {
    NoShareIsFair(b.rate, b.emitted);
  }

  lemma FairAt(b: Book, k: Id)
    requires Fair(b)
    ensures FairShare(ShareOf(b.shares, k), b.rate, b.emitted)
    ensures 0 <= Earned(ShareOf(b.shares, k), b.rate) <= b.emitted
  {
    NoShareIsFair(b.rate, b.emitted);
    EarnedBounds(ShareOf(b.shares, k), b.rate, b.emitted);
  }

  lemma ReweighKeepsSound(b: Book, k: Id, weight: nat)
    requires Sound(b)
    ensures 0 <= Earned(ShareOf(b.shares, k), b.rate) && Sound(Reweigh(b, k, weight))
  {
    FairAt(b, k);
    var sh := ShareOf(b.shares, k);
    SettledIsFair(sh, b.rate, weight, b.emitted);
    SettledOwes(sh, b.rate, weight);
    SumPut(b.shares, Owed(b.rate), k, Settled(sh, b.rate, weight));
    OwedAt(b, k);
  }

  lemma SettledGain(sh: Share, rate: nat, weight: nat)
    requires 0 <= Earned(sh, rate)
    ensures Owed(rate)(Settled(sh, rate, weight)) - Owed(rate)(sh)
         == weight * rate % REWARD_SCALE - sh.weight * rate % REWARD_SCALE
  {
    var x, y := weight * rate, sh.weight * rate;
    assert x == REWARD_SCALE * (x / REWARD_SCALE) + x % REWARD_SCALE;
    assert y == REWARD_SCALE * (y / REWARD_SCALE) + y % REWARD_SCALE;
  }

  /** What rounding an entitlement down withholds, scaled. */
  function Withheld(weight: nat, rate: nat): nat { weight * rate % REWARD_SCALE }

  /** What a change of weight costs: it may be negative. */
  function Drift(b: Book, k: Id, weight: nat): int {
    Withheld(weight, b.rate) - Withheld(ShareOf(b.shares, k).weight, b.rate)
  }

  /** A change of weight costs exactly the difference of the two remainders. */
  lemma ReweighChangesLiability(b: Book, k: Id, weight: nat)
    requires 0 <= Earned(ShareOf(b.shares, k), b.rate)
    ensures Liability(Reweigh(b, k, weight)) - Liability(b) == Drift(b, k, weight)
    ensures Drift(b, k, weight) <= if weight == ShareOf(b.shares, k).weight then 0 else REWARD_SCALE - 1
  {
    var sh := ShareOf(b.shares, k);
    SettledGain(sh, b.rate, weight);
    SumPut(b.shares, Owed(b.rate), k, Settled(sh, b.rate, weight));
    OwedAt(b, k);
  }

  /** So it leaves the liability as small as it was if and only if the new entitlement is rounded down
      by no more than the old one: a caller can check that beforehand. */
  lemma ReweighKeepsLiabilityIff(b: Book, k: Id, weight: nat)
    requires 0 <= Earned(ShareOf(b.shares, k), b.rate)
    ensures Liability(Reweigh(b, k, weight)) <= Liability(b) <==>
      Withheld(weight, b.rate) <= Withheld(ShareOf(b.shares, k).weight, b.rate)
  {
    ReweighChangesLiability(b, k, weight);
  }

  /** A claim moves exactly as much out of the accounts as it pays. */
  lemma CollectIsExact(b: Book, k: Id)
    requires k in b.shares && 0 <= Earned(b.shares[k], b.rate)
    ensures Liability(Collect(b, k)) == Liability(b)
  {
    var sh := Settled(b.shares[k], b.rate, b.shares[k].weight);
    SettledOwes(b.shares[k], b.rate, b.shares[k].weight);
    SumPut(b.shares, Owed(b.rate), k, sh.(pending := 0));
  }

  lemma CollectKeepsSound(b: Book, k: Id)
    requires Sound(b) && k in b.shares
    ensures 0 <= Earned(b.shares[k], b.rate) && Sound(Collect(b, k))
  {
    FairAt(b, k);
    SettledIsFair(b.shares[k], b.rate, b.shares[k].weight, b.emitted);
    CollectIsExact(b, k);
  }

  /** Closing an account never costs the others anything. */
  lemma EvictLowersLiability(b: Book, k: Id, payout: nat)
    requires k in b.shares && payout <= b.shares[k].pending + Earned(b.shares[k], b.rate)
    ensures Liability(Evict(b, k, payout)) <= Liability(b)
  {
    FloorBounds(b.shares[k].weight * b.rate, REWARD_SCALE);
    SumDrop(b.shares, Owed(b.rate), k);
  }

  lemma EvictKeepsSound(b: Book, k: Id, payout: nat)
    requires Sound(b) && k in b.shares
    requires payout <= b.shares[k].pending + Earned(b.shares[k], b.rate)
    ensures Sound(Evict(b, k, payout))
  {
    EvictLowersLiability(b, k, payout);
  }

  /** A rise of the rate earns every account its weight's part of it. */
  lemma RiseOwes(sh: Share, rate: nat, rise: nat)
    ensures Owed(rate + rise)(sh) == Owed(rate)(sh) + rise * Weight(sh)
  {
    assert sh.weight * (rate + rise) == sh.weight * rate + rise * sh.weight;
  }

  lemma RiseIsFair(sh: Share, rate: nat, rise: nat, emitted: nat, amount: nat)
    requires FairShare(sh, rate, emitted) && rise * sh.weight <= REWARD_SCALE * amount
    ensures FairShare(sh, rate + rise, emitted + amount)
  {
    assert sh.weight * (rate + rise) == sh.weight * rate + rise * sh.weight;
    MulMonotone(0, rise, sh.weight);
  }

  /** The rise of the rate, over all weights, is covered by the amount. */
  lemma RiseIsCovered(amount: nat, total: nat) returns (rise: nat)
    requires total > 0
    ensures rise == amount * REWARD_SCALE / total && rise * total <= REWARD_SCALE * amount
  {
    FloorBounds(amount * REWARD_SCALE, total);
    rise := amount * REWARD_SCALE / total;
  }

  /** Spreading `amount` over the summed weights adds at most `amount` to what is owed. */
  lemma EmitCosts(b: Book, amount: nat, total: nat)
    requires total > 0 && total == Sum(b.shares, Weight)
    ensures Liability(Emit(b, amount, total)) <= Liability(b) + REWARD_SCALE * amount
  {
    var rise := RiseIsCovered(amount, total);
    forall k | k in b.shares
      ensures Owed(b.rate + rise)(b.shares[k]) == Owed(b.rate)(b.shares[k]) + rise * Weight(b.shares[k])
    {
      RiseOwes(b.shares[k], b.rate, rise);
    }
    SumLinear(b.shares, Owed(b.rate + rise), Owed(b.rate), Weight, rise);
  }

  lemma EmitKeepsSound(b: Book, amount: nat, total: nat)
    requires Sound(b) && total > 0 && total == Sum(b.shares, Weight)
    ensures Sound(Emit(b, amount, total))
  {
    EmitCosts(b, amount, total);
    var rise := RiseIsCovered(amount, total);
    forall k | k in b.shares ensures FairShare(b.shares[k], b.rate + rise, b.emitted + amount) {
      SumAtLeast(b.shares, Weight, k);
      MulMonotone(b.shares[k].weight, total, rise);
      RiseIsFair(b.shares[k], b.rate, rise, b.emitted, amount);
    }
  }

  /** In a sound book whatever was paid, plus every whole unit still pending,
      is covered by the emissions and less than one unit per change of weight. */
  lemma PayoutsAreCovered(b: Book)
    requires Sound(b)
    ensures b.paid <= b.emitted + b.changes
    ensures b.changes == 0 ==> b.paid <= b.emitted
  {
    forall k | k in b.shares ensures Owed(b.rate)(b.shares[k]) >= 0 {
      assert FairShare(b.shares[k], b.rate, b.emitted);
    }
    SumNonNegative(b.shares, Owed(b.rate));
  }

  // --- In plain numbers ---------------------------------------------------------

  /** What an account earned since its debt was set, at a rate with twelve decimals. */
  ghost predicate IsEarned(earned: int, sh: Share, rate: nat) {
    IsFloor(earned + sh.debt, sh.weight * rate, 1_000_000_000_000)
  }

  /** The account was settled and its debt set for a new weight. */
  ghost predicate IsResettled(before: Share, after: Share, rate: nat, weight: int) {
    && after.weight == weight && IsFloor(after.debt, weight * rate, 1_000_000_000_000)
    && IsEarned(after.pending - before.pending, before, rate)
  }

  lemma EarnedIs(sh: Share, rate: nat)
    ensures IsEarned(Earned(sh, rate), sh, rate)
  {
    FloorIs(sh.weight * rate, REWARD_SCALE);
  }

  lemma EarnedUnique(earned: int, sh: Share, rate: nat)
    requires IsEarned(earned, sh, rate)
    ensures earned == Earned(sh, rate)
  {
    FloorUnique(earned + sh.debt, sh.weight * rate, REWARD_SCALE);
  }

  lemma SettledIs(sh: Share, rate: nat, weight: nat)
    requires 0 <= Earned(sh, rate)
    ensures IsResettled(sh, Settled(sh, rate, weight), rate, weight)
  {
    EarnedIs(sh, rate);
    FloorIs(weight * rate, REWARD_SCALE);
  }
}
