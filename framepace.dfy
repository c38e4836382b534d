/**
 * The frame limiter of the `bevy_framepace` crate, as far as the game uses
 * it: a three-way limiter held in a settings resource that systems overwrite.
 */
module Framepace {

  /**
   * The frame period of a manual limiter, `Duration::from_secs_f64(1.0 / rate)`.
   * It is compared only for equality, so it is identified by the rate it was
   * built from.
   */
  datatype Period = PeriodOf(rate: nat)

  datatype Limiter = Auto | Manual(period: Period) | Off

  /** `Limiter::from_framerate(rate)`. */
  function FromFramerate(rate: nat): (l: Limiter)
    requires rate > 0
    ensures l.Manual? && l.period.rate == rate
  {
    Manual(PeriodOf(rate))
  }

  /** The fixed fallback rate the limiter cycles through. */
  const FALLBACK_FRAMERATE: nat := 30

  /** The `FramepaceSettings` resource. */
  class FramepaceSettings {
    var limiter: Limiter

    constructor (limiter: Limiter)
      ensures this.limiter == limiter
    {
      this.limiter := limiter;
    }
  }
}
