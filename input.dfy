/** Keyboard input as the game systems see it in one frame (Bevy's `ButtonInput<KeyCode>`). */
module Input {

  /** The keys the modelled systems look at. */
  datatype KeyCode =
    | Digit1 | Digit2 | Digit3 | Digit4 | Digit5 | Digit6 | Digit7 | Digit8 | Digit9
    | Space | Escape | BracketLeft | BracketRight | Backslash | F3

  /**
   * `pressed`: keys held down this frame; `justPressed`: keys whose press
   * started this frame.
   */
  datatype ButtonInput = ButtonInput(pressed: set<KeyCode>, justPressed: set<KeyCode>)
}
