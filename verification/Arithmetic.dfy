/** The integer widths of the on-chain programs and their checked arithmetic.
    Amounts are mathematical integers; every place where the programs narrow,
    wrap or refuse a value says so through the functions below. */
module Arithmetic {

  const U64: nat := 0x1_0000_0000_0000_0000
  const U128: nat := 0x1_0000_0000_0000_0000_0000_0000_0000_0000

  /** Basis points in the whole. */
  const BPS: nat := 10_000

  /** Width of an instruction argument, a token amount or a clock reading. */
  type u64 = x: nat | x < U64

  datatype Error =
    | ZeroAmount | MathOverflow | TransferFailed | AccountMissing | AccountInUse
    // rise-rewards
    | GaugeNotActive | InsufficientBalance | NoRewardsToClaim | InvalidWeight
    // rise-staking
    | PoolPaused | UnstakeNotReady | InsufficientLiquidity | EpochNotAdvanced
    // rise-cdp
    | CollateralNotAccepted | ExceedsMaxLtv | DebtCeilingExceeded | ExceedsSingleLoanCap
    | PositionClosed | PositionStillOpen | PositionHealthy | InsufficientExcess
    | InsufficientRepaymentBalance | LiquidityRedemptionNotNeeded | InvalidOraclePrice
    // rise-governance
    | LockTooShort | LockTooLong | LockExpired | LockNotExpired

  /** An argument that may be left out. */
  datatype Option<+T> = None | Some(value: T) {
    function GetOr(default: T): T { if Some? then value else default }
  }

  /** How an instruction ends. A failed instruction leaves no trace on chain. */
  datatype Outcome = Done | Failed(error: Error) {
    predicate IsFailure() { Failed? }
    function PropagateFailure(): Outcome { this }
  }

  /** The value of a checked operation, or the reason it aborts the instruction. */
  datatype Result<+T> = Ok(value: T) | Err(error: Error) {
    predicate IsFailure() { Err? }
    function PropagateFailure(): Outcome { if Err? then Failed(error) else Done }
    function Extract(): T requires Ok? { value }
  }

  function Require(condition: bool, error: Error): Outcome {
    if condition then Done else Failed(error)
  }

  function Narrow64(x: nat): Result<nat> {
    if x < U64 then Ok(x) else Err(MathOverflow)
  }

  function Narrow128(x: nat): Result<nat> {
    if x < U128 then Ok(x) else Err(MathOverflow)
  }

  function Add64(a: nat, b: nat): Result<nat> { Narrow64(a + b) }

  function Add128(a: nat, b: nat): Result<nat> { Narrow128(a + b) }

  function Mul128(a: nat, b: nat): Result<nat> { Narrow128(a * b) }

  function CheckedSub(a: nat, b: nat): Result<nat> {
    if b <= a then Ok(a - b) else Err(MathOverflow)
  }

  function CheckedDiv(a: nat, b: nat): Result<nat> {
    if b != 0 then Ok(a / b) else Err(MathOverflow)
  }

  function SaturatingMul128(a: nat, b: nat): nat { Min(a * b, U128 - 1) }

  function SaturatingSub(a: nat, b: nat): nat { if b <= a then a - b else 0 }

  /** The cast `as u64`. */
  function Truncate64(x: nat): nat { x % U64 }

  /** The part of `x` that `part` is of `whole`, rounded down. */
  function Part(x: nat, part: nat, whole: nat): nat
    requires 0 < whole
  {
    x * part / whole
  }

  function Min(a: nat, b: nat): nat { if a <= b then a else b }

  function Max(a: nat, b: nat): nat { if a <= b then b else a }

  // --- Floor division ---------------------------------------------------------

  /** Floor division is the upper adjoint of multiplication. */
  lemma FloorAdjoint(q: int, n: nat, d: nat)
    requires d > 0
    ensures q <= n / d <==> q * d <= n
  {
    assert n == d * (n / d) + n % d;
    if q <= n / d {
      MulMonotone(q, n / d, d);
    } else {
      MulMonotone(n / d + 1, q, d);
      assert (n / d + 1) * d == d * (n / d) + d;
    }
  }

  lemma FloorBounds(n: nat, d: nat)
    requires d > 0
    ensures n / d * d <= n < n / d * d + d
  {
    assert n == d * (n / d) + n % d;
  }

  /** `q` is `n` divided by `d`, rounded down: said without dividing. */
  ghost predicate IsFloor(q: int, n: int, d: int) { 0 < d && q * d <= n < q * d + d }

  lemma FloorIs(n: nat, d: nat)
    requires d > 0
    ensures IsFloor(n / d, n, d)
  {
    FloorBounds(n, d);
  }

  /** There is only one such number. */
  lemma FloorUnique(q: int, n: nat, d: nat)
    requires IsFloor(q, n, d)
    ensures q == n / d
  {
    assert (q + 1) * d == q * d + d;
    FloorAdjoint(q, n, d);
    FloorAdjoint(q + 1, n, d);
  }

  lemma MulMonotone(a: int, b: int, c: nat)
    requires a <= b
    ensures a * c <= b * c
    ensures c * a <= c * b
  {
    assert 0 <= (b - a) * c;
  }

  lemma FloorMonotone(a: nat, b: nat, d: nat)
    requires a <= b && d > 0
    ensures a / d <= b / d
  {
    FloorBounds(a, d);
    FloorAdjoint(a / d, b, d);
  }

  /** Rounding each part down never exceeds rounding the whole down. */
  lemma FloorSuperadditive(a: nat, b: nat, d: nat)
    requires d > 0
    ensures a / d + b / d <= (a + b) / d <= a / d + b / d + 1
  {
    FloorBounds(a, d);
    FloorBounds(b, d);
    var q := a / d + b / d;
    assert q * d == a / d * d + b / d * d;
    FloorAdjoint(q, a + b, d);
    assert (q + 2) * d == a / d * d + d + (b / d * d + d);
    FloorAdjoint(q + 2, a + b, d);
  }

  /** A part of at most the whole is at most the whole, and the whole's part is the whole. */
  lemma ShareAtMost(x: nat, part: nat, whole: nat)
    requires part <= whole && 0 < whole
    ensures Part(x, part, whole) == x * part / whole <= x
    ensures part == whole ==> Part(x, part, whole) == x
  {
    MulMonotone(part, whole, x);
    assert (x + 1) * whole == x * whole + whole;
    FloorAdjoint(x + 1, x * part, whole);
    FloorAdjoint(x, x * part, whole);
  }

  lemma PartMonotone(x: nat, part: nat, more: nat, whole: nat)
    requires part <= more && 0 < whole
    ensures Part(x, part, whole) <= Part(x, more, whole)
  {
    MulMonotone(part, more, x);
    FloorMonotone(x * part, x * more, whole);
  }
}
