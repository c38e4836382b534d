/** The frame limiter toggle of the game client (`limit_fps` in client/src/main.rs). */
module ClientFrameLimit {
  import opened Wrappers
  import opened Input
  import opened Framepace
  import opened Monitors

  /**
   * `Duration::from_secs_f64(1.0 / hz)`: for hz = 0 the number of seconds is
   * infinite, which `Duration` refuses with a panic (None here).
   */
  function PeriodFor(hz: nat): (p: Option<Period>)
    ensures p.Some? <==> hz > 0
    ensures p.Some? ==> p.value.rate == hz
  {
    if hz == 0 then None else Some(PeriodOf(hz))
  }

  /** The outcome of one transition: a new limiter, or a panic that leaves the settings as they were. */
  datatype Step = Applied(limiter: Limiter) | Panicked

  /**
   * One Space press with the primary monitor running at `hz`: Auto goes to Off,
   * Off to 30 fps, and a manual limiter goes to Off when it already runs at the
   * monitor's rate, otherwise to the monitor's rate.
   */
  function NextLimiter(l: Limiter, hz: nat): (r: Step)
    ensures l.Auto? ==> r == Applied(Off)
    ensures l.Off? ==> r == Applied(Manual(PeriodOf(FALLBACK_FRAMERATE)))
    ensures l.Manual? && hz == 0 ==> r.Panicked?
    ensures l.Manual? && hz > 0 && l.period.rate == hz ==> r == Applied(Off)
    ensures l.Manual? && hz > 0 && l.period.rate != hz ==> r == Applied(Manual(PeriodOf(hz)))
  {
    match l
    case Auto => Applied(Off)
    case Off => Applied(FromFramerate(FALLBACK_FRAMERATE))
    case Manual(fps) =>
      match PeriodFor(hz)
      case None => Panicked
      case Some(p) => if fps != p then Applied(FromFramerate(hz)) else Applied(Off)
  }

  /** Once the client has left Auto it never returns to it. */
  lemma NeverBackToAuto(l: Limiter, hz: nat)
    ensures NextLimiter(l, hz).Applied? ==> !NextLimiter(l, hz).limiter.Auto?
  {
  }

  /** The limiter after a run of presses at a fixed monitor rate (None once a press panics). */
  function Presses(l: Limiter, hz: nat, n: nat): Option<Limiter>
    decreases n
  {
    if n == 0 then Some(l)
    else match NextLimiter(l, hz)
      case Panicked => None
      case Applied(next) => Presses(next, hz, n - 1)
  }

  /**
   * With a monitor that reports a rate, the client cycles Off, 30 fps, the
   * monitor's rate, Off again: back to Off after three presses, or two when
   * the monitor runs at 30 Hz.
   */
  lemma {:induction false} OffCycle(hz: nat)
    requires hz > 0
    ensures hz != FALLBACK_FRAMERATE ==> Presses(Off, hz, 3) == Some(Off)
    ensures hz != FALLBACK_FRAMERATE ==> Presses(Off, hz, 2) == Some(Manual(PeriodOf(hz)))
    ensures hz == FALLBACK_FRAMERATE ==> Presses(Off, hz, 2) == Some(Off)
  {
    var thirty := Manual(PeriodOf(FALLBACK_FRAMERATE));
    assert NextLimiter(Off, hz) == Applied(thirty);
    assert Presses(Off, hz, 2) == Presses(thirty, hz, 1);
    assert Presses(Off, hz, 3) == Presses(thirty, hz, 2);
    if hz != FALLBACK_FRAMERATE {
      assert NextLimiter(thirty, hz) == Applied(Manual(PeriodOf(hz)));
      assert NextLimiter(Manual(PeriodOf(hz)), hz) == Applied(Off);
      assert Presses(thirty, hz, 2) == Presses(Manual(PeriodOf(hz)), hz, 1);
    } else {
      assert NextLimiter(thirty, hz) == Applied(Off);
    }
  }

  /**
   * `limit_fps`. Without a Space press nothing happens. With one, the system
   * returns early unless exactly one primary monitor exists; otherwise the
   * limiter takes one step at that monitor's rounded refresh rate. `panicked`
   * reports the press that reaches `Duration::from_secs_f64` with a 0 Hz rate.
   */
  method LimitFps(settings: FramepaceSettings, primaryMonitors: seq<Monitor>, input: ButtonInput)
    returns (panicked: bool)
    modifies settings
    ensures Space !in input.justPressed || |primaryMonitors| != 1 ==>
      !panicked && settings.limiter == old(settings.limiter)
    ensures Space in input.justPressed && |primaryMonitors| == 1 ==>
      var step := NextLimiter(old(settings.limiter), RefreshHz(primaryMonitors[0].refreshRateMillihertz));
      panicked == step.Panicked? &&
      settings.limiter == (if step.Applied? then step.limiter else old(settings.limiter))
  {
    panicked := false;
    if Space in input.justPressed {
      if |primaryMonitors| != 1 {
        // No single primary monitor: the source warns once and returns.
        return;
      }
      var hz := RefreshHz(primaryMonitors[0].refreshRateMillihertz);
      match settings.limiter {
        case Auto =>
          settings.limiter := Off;
        case Off =>
          settings.limiter := FromFramerate(FALLBACK_FRAMERATE);
        case Manual(fps) =>
          if hz == 0 {
            panicked := true;
          } else if fps != PeriodOf(hz) {
            settings.limiter := FromFramerate(hz);
          } else {
            settings.limiter := Off;
          }
      }
    }
  }
}
