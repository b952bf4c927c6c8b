/** Shared vocabulary: optional values, results, row keys and the two clocks. */
module Prelude {

  datatype Option<+T> = None | Some(value: T) {
    function GetOr(default: T): T {
      if Some? then value else default
    }
  }

  datatype Result<+T, +E> = Ok(value: T) | Err(error: E)

  /** A random UUID or 256-bit secret.  Secrets are stored hashed; the hash is taken to be
      injective, so a secret and its hash are the same key. */
  type Id = nat

  /** Microseconds of the database clock (`clock_timestamp()`). */
  type Time = int

  /** The process's monotonic clock, which bounds metadata leases. */
  type Instant = int

  const SECOND: Time := 1_000_000
  const CODE_SECONDS: nat := 60
  const SESSION_SECONDS: nat := 30 * 24 * 60 * 60
  const FAMILY_LIFETIME: Time := 30 * 24 * 60 * 60 * SECOND
  const BROWSER_LIFETIME: Time := 10 * 60 * SECOND
  const CHALLENGE_LIFETIME: Time := 10 * 60 * SECOND

  function Min(a: int, b: int): int {
    if a <= b then a else b
  }

  // ---- decimal text ----

  predicate IsDigit(c: char) {
    '0' <= c <= '9'
  }

  predicate AllDigits(text: string) {
    forall i | 0 <= i < |text| :: IsDigit(text[i])
  }

  function Decimal(digits: string): nat
    requires AllDigits(digits)
  {
    if digits == [] then 0
    else
      assert IsDigit(digits[|digits| - 1]);
      10 * Decimal(digits[..|digits| - 1]) + (digits[|digits| - 1] as int - '0' as int)
  }
}
