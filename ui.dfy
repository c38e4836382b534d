/**
 * GUI scale and GUI mode of the older GUI (src/ui/mod.rs): Escape toggles the
 * GUI, the bracket keys step the scale through 1..5, backslash selects
 * automatic scale, and at most one change is announced per frame.
 */
module Ui {
  import opened Integers
  import opened Input
  import opened Cursor

  datatype GUIScale = Auto | Scale(step: U8)

  datatype GUIMode = Closed | Opened | Typing

  const MIN_STEP: nat := 1
  const MAX_STEP: nat := 5
  /** The factor used for automatic scale. */
  const AUTO_FACTOR: real := 2.0

  /** `gui_scale_to_float`: automatic scale counts as 2, a manual step as itself. */
  function GuiScaleToFloat(s: GUIScale): (r: real)
    ensures s.Auto? ==> r == AUTO_FACTOR
    ensures s.Scale? ==> r == s.step as real
  {
    match s
    case Auto => AUTO_FACTOR
    case Scale(x) => x as real
  }

  /** Escape opens a closed GUI and closes an open (or typing) one; without Escape the mode stays. */
  function NextMode(m: GUIMode, escape: bool): (r: GUIMode)
    ensures !escape ==> r == m
    ensures escape ==> (r == Opened <==> m == Closed)
    ensures escape ==> (r == Closed <==> m != Closed)
  {
    if !escape then m else if m == Closed then Opened else Closed
  }

  /** Two Escape presses restore Closed or Opened; Typing comes back as Opened. */
  lemma EscapeTwice(m: GUIMode)
    ensures NextMode(NextMode(m, true), true) == if m == Typing then Opened else m
  {
  }

  predicate StepInRange(s: GUIScale)
  {
    s.Scale? ==> MIN_STEP <= s.step <= MAX_STEP
  }

  predicate AnyScaleKey(justPressed: set<KeyCode>)
  {
    BracketLeft in justPressed || BracketRight in justPressed || Backslash in justPressed
  }

  /**
   * The scale after one frame, by priority: from a manual step, backslash wins
   * and selects automatic scale; else `]` steps up below 5; else `[` steps
   * down above 1. From automatic scale, one of the three keys selects step 1.
   */
  function NextScale(s: GUIScale, justPressed: set<KeyCode>): GUIScale
  {
    match s
    case Scale(n) =>
      if Backslash in justPressed then Auto
      else if BracketRight in justPressed && n < MAX_STEP then Scale(n + 1)
      else if BracketLeft in justPressed && n > MIN_STEP then Scale(n - 1)
      else s
    case Auto => if AnyScaleKey(justPressed) then Scale(1) else s
  }

  /** Whether some assignment of `change_gui_scale` fires this frame (its `scale_changed` flag). */
  predicate ScaleChangeApplied(s: GUIScale, justPressed: set<KeyCode>)
  {
    match s
    case Scale(n) =>
      (BracketLeft in justPressed && n > MIN_STEP) ||
      (BracketRight in justPressed && n < MAX_STEP) ||
      Backslash in justPressed
    case Auto => AnyScaleKey(justPressed)
  }

  /** A change is announced exactly when the scale differs afterwards. */
  lemma ChangeAppliedIffScaleDiffers(s: GUIScale, justPressed: set<KeyCode>)
    ensures ScaleChangeApplied(s, justPressed) <==> NextScale(s, justPressed) != s
  {
  }

  /** A scale within 1..5 stays within 1..5. */
  lemma NextScaleInRange(s: GUIScale, justPressed: set<KeyCode>)
    requires StepInRange(s)
    ensures StepInRange(NextScale(s, justPressed))
  {
  }

  /** The GUI resources: scale and mode, and the events written for each. */
  class UiState {
    var scale: GUIScale
    var mode: GUIMode
    var scaleEvents: seq<GUIScale>
    var modeEvents: seq<GUIMode>

    constructor (scale: GUIScale, mode: GUIMode)
      ensures this.scale == scale && this.mode == mode
      ensures scaleEvents == [] && modeEvents == []
    {
      this.scale := scale;
      this.mode := mode;
      scaleEvents := [];
      modeEvents := [];
    }

    /** `change_gui_mode`: Escape toggles the mode and writes one event carrying the new mode. */
    method ChangeGuiMode(input: ButtonInput)
      modifies this`mode, this`modeEvents
      ensures mode == NextMode(old(mode), Escape in input.justPressed)
      ensures modeEvents == old(modeEvents) + if Escape in input.justPressed then [mode] else []
    {
      if Escape in input.justPressed {
        if mode == Closed {
          mode := Opened;
        } else {
          mode := Closed;
        }
        modeEvents := modeEvents + [mode];
      }
    }

    /**
     * `change_gui_scale`: applies the keys, then writes at most one event,
     * carrying the final scale.
     */
    method ChangeGuiScale(input: ButtonInput)
      modifies this`scale, this`scaleEvents
      ensures scale == NextScale(old(scale), input.justPressed)
      ensures scaleEvents == old(scaleEvents) +
        if ScaleChangeApplied(old(scale), input.justPressed) then [scale] else []
    {
      var jp := input.justPressed;
      var scaleChanged := false;
      if scale.Scale? {
        var n := scale.step;
        if BracketLeft in jp && n > 1 {
          scale := Scale(n - 1);
          scaleChanged := true;
        }
        if BracketRight in jp && n < 5 {
          scale := Scale(n + 1);
          scaleChanged := true;
        }
        if Backslash in jp {
          scale := Auto;
          scaleChanged := true;
        }
      } else if BracketLeft in jp || BracketRight in jp || Backslash in jp {
        scale := Scale(1);
        scaleChanged := true;
      }
      if scaleChanged {
        scaleEvents := scaleEvents + [scale];
      }
    }

    /**
     * `handle_mouse`: focus events set the cursor only while the mode is
     * Closed; then each unread mode event sets it by whether its mode is Closed.
     * The mode itself is not changed.
     */
    method HandleMouse(window: Window, focusEvents: seq<bool>, unreadModeEvents: seq<GUIMode>)
      modifies window
      ensures window.cursorOptions ==
        LastWins(if mode == Closed then LastWins(old(window.cursorOptions), focusEvents)
                 else old(window.cursorOptions),
                 PlayingFlags(unreadModeEvents, Closed))
    {
      for i := 0 to |focusEvents|
        invariant window.cursorOptions ==
          if mode == Closed then LastWins(old(window.cursorOptions), focusEvents[..i])
          else old(window.cursorOptions)
      {
        var isPlaying := mode == Closed;
        if isPlaying {
          if focusEvents[i] {
            window.cursorOptions := window.cursorOptions.(grabMode := Locked);
          } else {
            window.cursorOptions := window.cursorOptions.(grabMode := None);
          }
          window.cursorOptions := window.cursorOptions.(visible := !focusEvents[i]);
        }
      }
      assert focusEvents[..|focusEvents|] == focusEvents;
      ghost var afterFocus := window.cursorOptions;
      for i := 0 to |unreadModeEvents|
        invariant window.cursorOptions == LastWins(afterFocus, PlayingFlags(unreadModeEvents[..i], Closed))
      {
        var isPlaying := unreadModeEvents[i] == Closed;
        window.cursorOptions := window.cursorOptions.(grabMode := if isPlaying then Locked else None);
        window.cursorOptions := window.cursorOptions.(visible := !isPlaying);
      }
      assert unreadModeEvents[..|unreadModeEvents|] == unreadModeEvents;
    }
  }

  /**
   * Focus events move the cursor only while the mode is Closed; a last mode
   * event locks and hides it exactly when that mode is Closed.
   */
  lemma HandleMouseCursorRule(c: CursorOptions, mode: GUIMode, focusEvents: seq<bool>, modeEvents: seq<GUIMode>)
    ensures mode != Closed && modeEvents == [] ==>
      LastWins(if mode == Closed then LastWins(c, focusEvents) else c, PlayingFlags(modeEvents, Closed)) == c
    ensures modeEvents != [] ==>
      var r := LastWins(if mode == Closed then LastWins(c, focusEvents) else c, PlayingFlags(modeEvents, Closed));
      && (r.grabMode == Locked <==> modeEvents[|modeEvents| - 1] == Closed)
      && (r.visible <==> modeEvents[|modeEvents| - 1] != Closed)
  {
  }
}
