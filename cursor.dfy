/**
 * The primary window's cursor options and the one rule both GUI versions
 * apply to them (src/gui/mod.rs, src/ui/mod.rs): while playing, the cursor is
 * locked and hidden; otherwise it is released and shown.
 */
module Cursor {

  datatype CursorGrabMode = None | Confined | Locked

  datatype CursorOptions = CursorOptions(grabMode: CursorGrabMode, visible: bool)

  /** The primary window; only its cursor options are modelled. */
  class Window {
    var cursorOptions: CursorOptions

    constructor (cursorOptions: CursorOptions)
      ensures this.cursorOptions == cursorOptions
    {
      this.cursorOptions := cursorOptions;
    }
  }

  /**
   * The cursor for a player who is (or is not) in the game: locked and hidden
   * exactly when playing, released and visible exactly when not. A focus event
   * applies it with `playing` = focused, a mode event with `playing` = the mode
   * is Closed.
   */
  function PlayCursor(playing: bool): (r: CursorOptions)
    ensures r.grabMode == Locked <==> playing
    ensures r.grabMode == None <==> !playing
    ensures r.visible <==> !playing
  {
    CursorOptions(if playing then Locked else None, !playing)
  }

  /** The cursor after a run of updates, each overwriting both options: the last one decides. */
  function LastWins(c: CursorOptions, playing: seq<bool>): CursorOptions
  {
    if playing == [] then c else PlayCursor(playing[|playing| - 1])
  }

  /** For each mode event, whether it means playing: its mode is the closed-GUI mode `closed`. */
  function PlayingFlags<M(==)>(events: seq<M>, closed: M): (r: seq<bool>)
    ensures |r| == |events|
    ensures forall i :: 0 <= i < |events| ==> (r[i] <==> events[i] == closed)
  {
    seq(|events|, i requires 0 <= i < |events| => events[i] == closed)
  }
}
