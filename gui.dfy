/**
 * GUI scale and GUI mode of the newer GUI (src/gui/mod.rs): the scale steps
 * through 1..5 on the bracket keys, resets to automatic on backslash, and
 * every applied change is announced; focus and mode events drive the cursor.
 */
module Gui {
  import opened Integers
  import opened Input
  import opened Cursor

  /**
   * Automatic scale (with its computed value, 0 meaning "recompute"), a manual
   * step, or a custom factor.
   */
  datatype GUIScale = Auto(auto: U8) | Scale(step: U8) | Custom(factor: real)

  datatype GUIMode = Closed | Opened | Typing

  const MIN_STEP: nat := 1
  const MAX_STEP: nat := 5

  /** `gui_scale_to_float`: the scale factor the layout multiplies by. */
  function GuiScaleToFloat(s: GUIScale): (r: real)
    ensures s.Auto? ==> r == s.auto as real
    ensures s.Scale? ==> r == s.step as real
    ensures s.Custom? ==> r == s.factor
  {
    match s
    case Auto(x) => x as real
    case Scale(x) => x as real
    case Custom(x) => x
  }

  /** A manual scale lies within 1..5. */
  predicate StepInRange(s: GUIScale)
  {
    s.Scale? ==> MIN_STEP <= s.step <= MAX_STEP
  }

  /** The keys `change_gui_scale` reacts to. */
  predicate AnyScaleKey(justPressed: set<KeyCode>)
  {
    BracketLeft in justPressed || BracketRight in justPressed || Backslash in justPressed
  }

  /**
   * The scale after one frame, by priority: from a manual step, backslash wins
   * and selects automatic scale; else `]` steps up below 5; else `[` steps
   * down above 1. From any other scale, one of the three keys selects step 1.
   */
  function NextScale(s: GUIScale, justPressed: set<KeyCode>): GUIScale
  {
    match s
    case Scale(n) =>
      if Backslash in justPressed then Auto(0)
      else if BracketRight in justPressed && n < MAX_STEP then Scale(n + 1)
      else if BracketLeft in justPressed && n > MIN_STEP then Scale(n - 1)
      else s
    case _ => if AnyScaleKey(justPressed) then Scale(1) else s
  }

  /**
   * The `GUIScaleChanged` events one frame sends, in order: one per applied
   * change. Both steps are computed from the scale at the start of the frame.
   */
  function ScaleChanges(s: GUIScale, justPressed: set<KeyCode>): seq<GUIScale>
  {
    match s
    case Scale(n) =>
      (if BracketLeft in justPressed && n > MIN_STEP then [Scale(n - 1)] else []) +
      (if BracketRight in justPressed && n < MAX_STEP then [Scale(n + 1)] else []) +
      (if Backslash in justPressed then [Auto(0)] else [])
    case _ => if AnyScaleKey(justPressed) then [Scale(1)] else []
  }

  /** A scale within 1..5 stays within 1..5. */
  lemma NextScaleInRange(s: GUIScale, justPressed: set<KeyCode>)
    requires StepInRange(s)
    ensures StepInRange(NextScale(s, justPressed))
  {
  }

  /**
   * The events of a frame announce every change and end in the new scale; a
   * frame sends no event exactly when the scale stays the same; at most three
   * events are sent.
   */
  lemma ScaleChangesAnnounceNextScale(s: GUIScale, justPressed: set<KeyCode>)
    ensures var e := ScaleChanges(s, justPressed);
      && |e| <= 3
      && (e == [] <==> NextScale(s, justPressed) == s)
      && (e != [] ==> e[|e| - 1] == NextScale(s, justPressed))
  {
  }

  /** The GUI resources of the world: the scale and mode, and the event queues of both. */
  class GuiState {
    var scale: GUIScale
    var mode: GUIMode
    /** `Events<GUIScaleChanged>`, oldest first. */
    var scaleEvents: seq<GUIScale>
    /**
     * `Events<GUIModeChanged>`, oldest first: the events the buffer holds at
     * the moment. `handle_mouse` reads them all through a fresh cursor each
     * frame; Bevy's dropping of events older than two updates is not modelled.
     */
    var modeEvents: seq<GUIMode>

    constructor (scale: GUIScale, mode: GUIMode)
      ensures this.scale == scale && this.mode == mode
      ensures scaleEvents == [] && modeEvents == []
    {
      this.scale := scale;
      this.mode := mode;
      scaleEvents := [];
      modeEvents := [];
    }

    /** `gui_scale_was_changed`: announces the current scale. */
    method GuiScaleWasChanged()
      modifies this`scaleEvents
      ensures scaleEvents == old(scaleEvents) + [scale]
    {
      scaleEvents := scaleEvents + [scale];
    }

    /**
     * `change_gui_scale`: applies the bracket and backslash keys and announces
     * each applied change.
     */
    method ChangeGuiScale(input: ButtonInput)
      modifies this`scale, this`scaleEvents
      ensures scale == NextScale(old(scale), input.justPressed)
      ensures scaleEvents == old(scaleEvents) + ScaleChanges(old(scale), input.justPressed)
    {
      var jp := input.justPressed;
      if scale.Scale? {
        var n := scale.step;
        if BracketLeft in jp && n > 1 {
          scale := Scale(n - 1);
          GuiScaleWasChanged();
        }
        if BracketRight in jp && n < 5 {
          scale := Scale(n + 1);
          GuiScaleWasChanged();
        }
        if Backslash in jp {
          scale := Auto(0);
          GuiScaleWasChanged();
        }
      } else if BracketLeft in jp || BracketRight in jp || Backslash in jp {
        scale := Scale(1);
        GuiScaleWasChanged();
      }
    }

    /**
     * `handle_mouse`. While playing with pause-on-lost-focus set, the first
     * focus event opens the GUI, announces it and ends the system. Otherwise
     * focus events set the cursor while playing, and then every stored mode
     * event sets it by whether its mode is Closed.
     */
    method HandleMouse(window: Window, focusEvents: seq<bool>, pauseOnLostFocus: bool)
      modifies this`mode, this`modeEvents, window
      ensures PausesOnFocus(old(mode), focusEvents, pauseOnLostFocus) ==>
        && mode == Opened
        && modeEvents == old(modeEvents) + [Opened]
        && window.cursorOptions == old(window.cursorOptions)
      ensures !PausesOnFocus(old(mode), focusEvents, pauseOnLostFocus) ==>
        && mode == old(mode)
        && modeEvents == old(modeEvents)
        && window.cursorOptions ==
             LastWins(AfterFocus(old(window.cursorOptions), old(mode), focusEvents), PlayingFlags(modeEvents, Closed))
    {
      for i := 0 to |focusEvents|
        invariant mode == old(mode) && modeEvents == old(modeEvents)
        invariant i > 0 ==> !PausesOnFocus(old(mode), focusEvents, pauseOnLostFocus)
        invariant window.cursorOptions == AfterFocus(old(window.cursorOptions), old(mode), focusEvents[..i])
      {
        var isPlaying := mode == Closed;
        if isPlaying {
          if pauseOnLostFocus {
            mode := Opened;
            modeEvents := modeEvents + [mode];
            return;
          }
          if focusEvents[i] {
            window.cursorOptions := window.cursorOptions.(grabMode := Locked);
          } else {
            window.cursorOptions := window.cursorOptions.(grabMode := None);
          }
          window.cursorOptions := window.cursorOptions.(visible := !focusEvents[i]);
        }
      }
      assert focusEvents[..|focusEvents|] == focusEvents;
      ghost var afterFocus := window.cursorOptions;
      for i := 0 to |modeEvents|
        modifies window
        invariant window.cursorOptions == LastWins(afterFocus, PlayingFlags(modeEvents[..i], Closed))
      {
        var isPlaying := modeEvents[i] == Closed;
        window.cursorOptions := window.cursorOptions.(grabMode := if isPlaying then Locked else None);
        window.cursorOptions := window.cursorOptions.(visible := !isPlaying);
      }
      assert modeEvents[..|modeEvents|] == modeEvents;
    }
  }

  /** Whether `handle_mouse` pauses: the game is being played, pausing is enabled and a focus event arrived. */
  predicate PausesOnFocus(mode: GUIMode, focusEvents: seq<bool>, pauseOnLostFocus: bool)
  {
    mode == Closed && pauseOnLostFocus && focusEvents != []
  }

  /** The cursor after the focus events: they apply only while playing, and the last one decides. */
  function AfterFocus(c: CursorOptions, mode: GUIMode, focusEvents: seq<bool>): CursorOptions
  {
    if mode == Closed then LastWins(c, focusEvents) else c
  }

  /**
   * After `handle_mouse` (when it does not pause), the cursor is locked and
   * hidden exactly when the last stored mode event is Closed, or, without mode
   * events, when the last focus event while playing was a gain of focus.
   */
  lemma HandleMouseCursorRule(c: CursorOptions, mode: GUIMode, focusEvents: seq<bool>, modeEvents: seq<GUIMode>)
    ensures var r := LastWins(AfterFocus(c, mode, focusEvents), PlayingFlags(modeEvents, Closed));
      && (modeEvents != [] ==>
            && (r.grabMode == Locked <==> modeEvents[|modeEvents| - 1] == Closed)
            && (r.visible <==> modeEvents[|modeEvents| - 1] != Closed))
      && (modeEvents == [] && mode == Closed && focusEvents != [] ==>
            && (r.grabMode == Locked <==> focusEvents[|focusEvents| - 1])
            && (r.visible <==> !focusEvents[|focusEvents| - 1]))
      && (modeEvents == [] && (mode != Closed || focusEvents == []) ==> r == c)
  {
  }
}
