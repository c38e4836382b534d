/**
 * Monitors as Bevy reports them, and the refresh-rate rounding shared by the
 * frame limiter (client/src/main.rs) and the debug HUD (both setup.rs files).
 */
module Monitors {
  import opened Wrappers
  import opened Integers

  /** A monitor: optional name, physical size in pixels, optional refresh rate in millihertz. */
  datatype Monitor = Monitor(
    name: Option<string>,
    physicalWidth: U32,
    physicalHeight: U32,
    refreshRateMillihertz: Option<U32>)

  /** The number of millihertz in the rounding step (10 Hz). */
  const MILLIHERTZ_STEP: nat := 10000

  /** Rust's `u32::div_ceil`: the quotient, plus one when there is a remainder. */
  function DivCeil(a: nat, b: nat): nat
    requires b > 0
  {
    if a % b > 0 then a / b + 1 else a / b
  }

  /**
   * `refresh_rate_millihertz.unwrap_or(0).div_ceil(10000) * 10`: the rate in
   * hertz, rounded up to a multiple of 10; a missing rate counts as 0.
   */
  function RefreshHz(millihertz: Option<U32>): nat
  {
    DivCeil(millihertz.UnwrapOr(0), MILLIHERTZ_STEP) * 10
  }

  /**
   * The rate is a multiple of 10 Hz, the smallest one at or above the
   * reported rate, and still fits in a u32.
   */
  lemma RefreshHzRounding(millihertz: Option<U32>)
    ensures RefreshHz(millihertz) % 10 == 0
    ensures millihertz.UnwrapOr(0) <= RefreshHz(millihertz) * 1000 < millihertz.UnwrapOr(0) + MILLIHERTZ_STEP
    ensures RefreshHz(millihertz) < U32_MODULUS
  {
    RoundUpBounds(millihertz.UnwrapOr(0));
  }

  /** The bounds of rounding up to the next multiple of 10000 millihertz. */
  lemma RoundUpBounds(m: U32)
    ensures var q := DivCeil(m, MILLIHERTZ_STEP);
      m <= q * MILLIHERTZ_STEP < m + MILLIHERTZ_STEP && q * 10 < U32_MODULUS
  {
    var q, r := m / MILLIHERTZ_STEP, m % MILLIHERTZ_STEP;
    assert m == q * MILLIHERTZ_STEP + r;
    assert q <= 429496;
  }

  /** A monitor with no refresh rate is shown and used as 0 Hz. */
  lemma MissingRateIsZero()
    ensures RefreshHz(None) == 0
  {
  }
}
