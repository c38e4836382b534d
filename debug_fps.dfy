/** The frame limiter toggle of the older debug overlay (src/debug/fps.rs). */
module DebugFps {
  import opened Input
  import opened Framepace

  /** The limiter that one Space press selects: Auto, then Off, then 30 fps, then Auto again. */
  function NextLimiter(l: Limiter): (r: Limiter)
    ensures l.Auto? ==> r.Off?
    ensures l.Off? ==> r == Manual(PeriodOf(FALLBACK_FRAMERATE))
    ensures l.Manual? ==> r.Auto?
  {
    match l
    case Auto => Off
    case Off => FromFramerate(FALLBACK_FRAMERATE)
    case Manual(_) => Auto
  }

  /** The limiter after `n` presses. */
  function Presses(l: Limiter, n: nat): Limiter
    decreases n
  {
    if n == 0 then l else Presses(NextLimiter(l), n - 1)
  }

  /** Three presses bring the limiter back to the variant it started in. */
  lemma {:induction false} ThreePressesCycle(l: Limiter)
    ensures Presses(l, 3).Auto? == l.Auto?
    ensures Presses(l, 3).Off? == l.Off?
    ensures Presses(l, 3).Manual? == l.Manual?
    ensures !l.Manual? ==> Presses(l, 3) == l
  {
    assert Presses(l, 3) == NextLimiter(NextLimiter(NextLimiter(l)));
  }

  /** Presses compose: the variant depends only on the number of presses modulo 3. */
  lemma {:induction false} PressesModThree(l: Limiter, n: nat)
    requires !l.Manual?
    ensures Presses(l, n) == Presses(l, n % 3)
    decreases n
  {
    if n >= 3 {
      calc {
        Presses(l, n);
        { PressesSplit(l, 3, n - 3); }
        Presses(Presses(l, 3), n - 3);
        { ThreePressesCycle(l); }
        Presses(l, n - 3);
        { PressesModThree(l, n - 3); }
        Presses(l, (n - 3) % 3);
      }
    }
  }

  lemma {:induction false} PressesSplit(l: Limiter, a: nat, b: nat)
    ensures Presses(l, a + b) == Presses(Presses(l, a), b)
    decreases a
  {
    if a > 0 {
      PressesSplit(NextLimiter(l), a - 1, b);
    }
  }

  /** `limit_fps`: a Space press this frame advances the limiter, otherwise nothing changes. */
  method LimitFps(settings: FramepaceSettings, input: ButtonInput)
    modifies settings
    ensures Space in input.justPressed ==> settings.limiter == NextLimiter(old(settings.limiter))
    ensures Space !in input.justPressed ==> settings.limiter == old(settings.limiter)
  {
    if Space in input.justPressed {
      settings.limiter := match settings.limiter
        case Auto => Off
        case Off => FromFramerate(FALLBACK_FRAMERATE)
        case Manual(_) => Auto;
    }
  }
}
