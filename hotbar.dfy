/**
 * The hotbar selection (src/gui/hud/hotbar.rs, repeated in
 * client/src/gui/hud/hotbar.rs): a slot index chosen by the digit keys and
 * moved by the mouse wheel with wrap-around, with one
 * `HotbarSelectionChanged` event written per change request.
 */
module Hotbar {
  import opened Wrappers
  import opened Integers
  import opened Input

  /** Maximum amount of hotbar slots. */
  const MAX_HOTBAR_SLOTS: nat := 9
  /** The slot a fresh hotbar starts on in the older client. */
  const HOTBAR_START_SELECTION: nat := 0

  /** The digit key that selects `slot`: Digit1 for slot 0 up to Digit9 for slot 8. */
  function DigitKey(slot: nat): KeyCode
    requires slot < MAX_HOTBAR_SLOTS
  {
    [Digit1, Digit2, Digit3, Digit4, Digit5, Digit6, Digit7, Digit8, Digit9][slot]
  }

  /** `keys.any_pressed([Digit1, …, Digit9])`. */
  predicate AnyDigitHeld(pressed: set<KeyCode>)
  {
    exists k :: 0 <= k < MAX_HOTBAR_SLOTS && DigitKey(k) in pressed
  }

  /** The highest slot below `n` whose digit key is held, if any. */
  function HighestHeld(pressed: set<KeyCode>, n: nat): Option<nat>
    requires n <= MAX_HOTBAR_SLOTS
  {
    if n == 0 then None
    else if DigitKey(n - 1) in pressed then Some(n - 1)
    else HighestHeld(pressed, n - 1)
  }

  /** HighestHeld finds a held slot exactly when there is one, and no held slot lies above it. */
  lemma {:induction false} HighestHeldIsMaximum(pressed: set<KeyCode>, n: nat)
    requires n <= MAX_HOTBAR_SLOTS
    ensures HighestHeld(pressed, n).Some? <==> exists k :: 0 <= k < n && DigitKey(k) in pressed
    ensures HighestHeld(pressed, n).Some? ==>
      var v := HighestHeld(pressed, n).value;
      v < n && DigitKey(v) in pressed && forall k :: v < k < n ==> DigitKey(k) !in pressed
  {
    if n > 0 && DigitKey(n - 1) !in pressed {
      HighestHeldIsMaximum(pressed, n - 1);
      if exists k :: 0 <= k < n && DigitKey(k) in pressed {
        var k :| 0 <= k < n && DigitKey(k) in pressed;
        assert k < n - 1;
      }
    }
  }

  /**
   * The nine assignments of the source, one per digit key in increasing
   * order, leave the slot of the highest held digit.
   */
  lemma DigitSelectionUnrolled(s: nat, pressed: set<KeyCode>)
    ensures DigitSelection(s, pressed) ==
      if Digit9 in pressed then 8 else if Digit8 in pressed then 7
      else if Digit7 in pressed then 6 else if Digit6 in pressed then 5
      else if Digit5 in pressed then 4 else if Digit4 in pressed then 3
      else if Digit3 in pressed then 2 else if Digit2 in pressed then 1
      else if Digit1 in pressed then 0 else s
  {
    assert HighestHeld(pressed, 9) == if Digit9 in pressed then Some(8) else HighestHeld(pressed, 8);
    assert HighestHeld(pressed, 8) == if Digit8 in pressed then Some(7) else HighestHeld(pressed, 7);
    assert HighestHeld(pressed, 7) == if Digit7 in pressed then Some(6) else HighestHeld(pressed, 6);
    assert HighestHeld(pressed, 6) == if Digit6 in pressed then Some(5) else HighestHeld(pressed, 5);
    assert HighestHeld(pressed, 5) == if Digit5 in pressed then Some(4) else HighestHeld(pressed, 4);
    assert HighestHeld(pressed, 4) == if Digit4 in pressed then Some(3) else HighestHeld(pressed, 3);
    assert HighestHeld(pressed, 3) == if Digit3 in pressed then Some(2) else HighestHeld(pressed, 2);
    assert HighestHeld(pressed, 2) == if Digit2 in pressed then Some(1) else HighestHeld(pressed, 1);
    assert HighestHeld(pressed, 1) == if Digit1 in pressed then Some(0) else HighestHeld(pressed, 0);
  }

  /**
   * The selection after the digit keys: the highest held digit's slot (later
   * assignments overwrite earlier ones), or `s` when no digit is held.
   */
  function DigitSelection(s: nat, pressed: set<KeyCode>): nat
  {
    HighestHeld(pressed, MAX_HOTBAR_SLOTS).UnwrapOr(s)
  }

  /**
   * With a digit held, the selection becomes the slot of the highest held
   * digit; with none held, it stays.
   */
  lemma DigitSelectionIsHighest(s: nat, pressed: set<KeyCode>)
    ensures AnyDigitHeld(pressed) ==>
      var r := DigitSelection(s, pressed);
      && r < MAX_HOTBAR_SLOTS && DigitKey(r) in pressed
      && forall k :: r < k < MAX_HOTBAR_SLOTS ==> DigitKey(k) !in pressed
    ensures !AnyDigitHeld(pressed) ==> DigitSelection(s, pressed) == s
  {
    HighestHeldIsMaximum(pressed, MAX_HOTBAR_SLOTS);
  }

  /** The events written by the digit keys: one carrying the new selection when any digit is held. */
  function DigitEvents(s: nat, pressed: set<KeyCode>): seq<nat>
  {
    if AnyDigitHeld(pressed) then [DigitSelection(s, pressed)] else []
  }

  /** +1 for a scroll up, -1 for a scroll down, 0 for a scroll event with y = 0. */
  function Direction(y: real): int
  {
    if y > 0.0 then 1 else if y < 0.0 then -1 else 0
  }

  /**
   * One mouse-wheel event: up moves to the next slot, wrapping past the last
   * to 0; down moves to the previous slot, wrapping below 0 to the last; a
   * zero y leaves the selection alone.
   */
  function ScrollStep(s: nat, y: real): nat
  {
    if y > 0.0 then
      if s < MAX_HOTBAR_SLOTS - 1 then s + 1 else 0
    else if y < 0.0 then
      if s >= 1 then s - 1 else MAX_HOTBAR_SLOTS - 1
    else s
  }

  /**
   * Within 0..8 a wheel event moves the slot by its direction modulo 9; a slot
   * outside 0..8 (a saved slot is not checked) goes to 0 on an up event and
   * one down on a down event.
   */
  lemma ScrollStepWraps(s: nat, y: real)
    ensures s < MAX_HOTBAR_SLOTS ==> ScrollStep(s, y) == (s + Direction(y)) % MAX_HOTBAR_SLOTS
    ensures s >= MAX_HOTBAR_SLOTS && y > 0.0 ==> ScrollStep(s, y) == 0
    ensures s >= MAX_HOTBAR_SLOTS && y < 0.0 ==> ScrollStep(s, y) == s - 1
    ensures y == 0.0 ==> ScrollStep(s, y) == s
  {
  }

  /** Scrolling up then down, or down then up, restores a slot. */
  lemma ScrollRoundTrip(s: nat, up: real, down: real)
    requires s < MAX_HOTBAR_SLOTS && up > 0.0 && down < 0.0
    ensures ScrollStep(ScrollStep(s, up), down) == s
    ensures ScrollStep(ScrollStep(s, down), up) == s
  {
  }

  /** The selection after a run of wheel events, applied in order. */
  function ScrollAll(s: nat, ys: seq<real>): nat
    decreases |ys|
  {
    if ys == [] then s else ScrollStep(ScrollAll(s, ys[..|ys| - 1]), ys[|ys| - 1])
  }

  /** The sum of the directions of a run of wheel events. */
  function NetScroll(ys: seq<real>): int
    decreases |ys|
  {
    if ys == [] then 0 else NetScroll(ys[..|ys| - 1]) + Direction(ys[|ys| - 1])
  }

  lemma ModAdd(a: int, d: int)
    ensures ((a % MAX_HOTBAR_SLOTS) + d) % MAX_HOTBAR_SLOTS == (a + d) % MAX_HOTBAR_SLOTS
  {
    var q := a / MAX_HOTBAR_SLOTS;
    assert a == q * MAX_HOTBAR_SLOTS + a % MAX_HOTBAR_SLOTS;
    assert a + d == (a % MAX_HOTBAR_SLOTS + d) + q * MAX_HOTBAR_SLOTS;
  }

  /**
   * A run of wheel events moves a slot by the net number of steps, modulo the
   * number of slots: the selection stays within 0..8 and ups and downs cancel.
   */
  lemma {:induction false} ScrollAllIsModularSum(s: nat, ys: seq<real>)
    requires s < MAX_HOTBAR_SLOTS
    ensures ScrollAll(s, ys) == (s + NetScroll(ys)) % MAX_HOTBAR_SLOTS
    ensures ScrollAll(s, ys) < MAX_HOTBAR_SLOTS
    decreases |ys|
  {
    if ys != [] {
      var init, y := ys[..|ys| - 1], ys[|ys| - 1];
      ScrollAllIsModularSum(s, init);
      ScrollStepWraps(ScrollAll(s, init), y);
      ModAdd(s + NetScroll(init), Direction(y));
    }
  }

  /** The events written by a run of wheel events: one per event, in order. */
  function ScrollEvents(s: nat, ys: seq<real>): (r: seq<nat>)
    ensures |r| == |ys|
    decreases |ys|
  {
    if ys == [] then [] else ScrollEvents(s, ys[..|ys| - 1]) + [ScrollAll(s, ys)]
  }

  /** Each wheel event's event carries the selection right after that event. */
  lemma {:induction false} ScrollEventsTrackSelection(s: nat, ys: seq<real>)
    ensures forall n :: 1 <= n <= |ys| ==> ScrollEvents(s, ys)[n - 1] == ScrollAll(s, ys[..n])
    decreases |ys|
  {
    if ys != [] {
      var init := ys[..|ys| - 1];
      ScrollEventsTrackSelection(s, init);
      assert ys[..|ys|] == ys;
      assert forall n :: 0 <= n <= |init| ==> init[..n] == ys[..n];
    }
  }

  /** Everything one hotbar writes in one frame: the digit event, then one event per wheel event. */
  function HotbarEvents(s: nat, pressed: set<KeyCode>, ys: seq<real>): seq<nat>
  {
    DigitEvents(s, pressed) + ScrollEvents(DigitSelection(s, pressed), ys)
  }

  /**
   * A hotbar that starts within 0..8 writes only slots within 0..8, and its
   * last event carries its final selection.
   */
  lemma HotbarEventsInRange(s: nat, pressed: set<KeyCode>, ys: seq<real>)
    requires s < MAX_HOTBAR_SLOTS
    ensures forall i :: 0 <= i < |HotbarEvents(s, pressed, ys)| ==>
      HotbarEvents(s, pressed, ys)[i] < MAX_HOTBAR_SLOTS
    ensures HotbarEvents(s, pressed, ys) != [] ==>
      HotbarEvents(s, pressed, ys)[|HotbarEvents(s, pressed, ys)| - 1] ==
        ScrollAll(DigitSelection(s, pressed), ys)
  {
    var d := DigitSelection(s, pressed);
    DigitSelectionIsHighest(s, pressed);
    var digits, events := DigitEvents(s, pressed), HotbarEvents(s, pressed, ys);
    forall i | 0 <= i < |events| ensures events[i] < MAX_HOTBAR_SLOTS {
      if i >= |digits| {
        var n := i - |digits| + 1;
        ScrollEventsTrackSelection(d, ys);
        assert events[i] == ScrollEvents(d, ys)[n - 1];
        ScrollAllIsModularSum(d, ys[..n]);
      }
    }
    assert ys[..|ys|] == ys;
  }

  /** The selections of a list of hotbars. */
  function Selections(hotbars: seq<Hotbar>): (r: seq<nat>)
    reads set h | h in hotbars
    ensures |r| == |hotbars|
    ensures forall i :: 0 <= i < |hotbars| ==> r[i] == hotbars[i].selected
  {
    seq(|hotbars|, i requires 0 <= i < |hotbars| reads hotbars => hotbars[i].selected)
  }

  /**
   * The events written by the selection system over hotbars whose selections
   * are `sels`: every hotbar sees the digit keys, but the wheel events are
   * read once, so only the first hotbar sees them.
   */
  function QueryEvents(sels: seq<nat>, pressed: set<KeyCode>, ys: seq<real>): seq<nat>
    decreases |sels|
  {
    if sels == [] then []
    else
      QueryEvents(sels[..|sels| - 1], pressed, ys) +
      HotbarEvents(sels[|sels| - 1], pressed, if |sels| == 1 then ys else [])
  }

  /** A hotbar entity. */
  class Hotbar {
    var selected: nat

    constructor (selected: nat)
      ensures this.selected == selected
    {
      this.selected := selected;
    }

    /**
     * The body of `update_hotbar_selection` for one hotbar: the digit keys,
     * then every unread wheel event, writing the events in order.
     */
    method UpdateSelection(input: ButtonInput, scrolls: seq<real>) returns (written: seq<nat>)
      modifies this
      ensures selected == ScrollAll(DigitSelection(old(selected), input.pressed), scrolls)
      ensures written == HotbarEvents(old(selected), input.pressed, scrolls)
    {
      written := [];
      if AnyDigitHeld(input.pressed) {
        SelectByDigits(input.pressed);
        written := written + [selected];
      } else {
        DigitSelectionIsHighest(selected, input.pressed);
      }
      var scrolled := ApplyScrolls(scrolls);
      written := written + scrolled;
    }

    /** The wheel events, in order, each moving the selection one slot with wrap-around. */
    method ApplyScrolls(scrolls: seq<real>) returns (written: seq<nat>)
      modifies this
      ensures selected == ScrollAll(old(selected), scrolls)
      ensures written == ScrollEvents(old(selected), scrolls)
    {
      written := [];
      for i := 0 to |scrolls|
        invariant selected == ScrollAll(old(selected), scrolls[..i])
        invariant written == ScrollEvents(old(selected), scrolls[..i])
      {
        ScrollPrefixStep(old(selected), scrolls, i);
        var y := scrolls[i];
        if y > 0.0 {
          if selected < MAX_HOTBAR_SLOTS - 1 {
            selected := selected + 1;
          } else {
            selected := 0;
          }
        } else if y < 0.0 {
          if selected >= 1 {
            selected := selected - 1;
          } else {
            selected := MAX_HOTBAR_SLOTS - 1;
          }
        }
        written := written + [selected];
      }
      assert scrolls[..|scrolls|] == scrolls;
    }

    /** The nine digit-key checks, in increasing order: the last held digit wins. */
    method SelectByDigits(pressed: set<KeyCode>)
      modifies this
      ensures selected == DigitSelection(old(selected), pressed)
    {
      DigitSelectionUnrolled(selected, pressed);
      if Digit1 in pressed { selected := 0; }
      if Digit2 in pressed { selected := 1; }
      if Digit3 in pressed { selected := 2; }
      if Digit4 in pressed { selected := 3; }
      if Digit5 in pressed { selected := 4; }
      if Digit6 in pressed { selected := 5; }
      if Digit7 in pressed { selected := 6; }
      if Digit8 in pressed { selected := 7; }
      if Digit9 in pressed { selected := 8; }
    }
  }

  /** Extending a run of wheel events by one event takes one more step and writes one more event. */
  lemma ScrollPrefixStep(s: nat, ys: seq<real>, i: nat)
    requires i < |ys|
    ensures ScrollAll(s, ys[..i + 1]) == ScrollStep(ScrollAll(s, ys[..i]), ys[i])
    ensures ScrollEvents(s, ys[..i + 1]) == ScrollEvents(s, ys[..i]) + [ScrollAll(s, ys[..i + 1])]
  {
    assert ys[..i + 1][..i] == ys[..i];
  }

  /** `setup_hotbar` of the older client: the hotbar starts on slot 0 and announces it. */
  method SetupHotbar() returns (hotbar: Hotbar, written: seq<nat>)
    ensures fresh(hotbar)
    ensures hotbar.selected == HOTBAR_START_SELECTION && written == [HOTBAR_START_SELECTION]
  {
    hotbar := new Hotbar(HOTBAR_START_SELECTION);
    written := [HOTBAR_START_SELECTION];
  }

  /**
   * `setup_hotbar` of the game client: the hotbar starts on the player's
   * saved slot, unchecked, and announces it.
   */
  method SetupHotbarFromPlayer(selectedItemSlot: U32) returns (hotbar: Hotbar, written: seq<nat>)
    ensures fresh(hotbar)
    ensures hotbar.selected == selectedItemSlot && written == [selectedItemSlot]
  {
    hotbar := new Hotbar(selectedItemSlot);
    written := [selectedItemSlot];
  }

  /**
   * `update_hotbar_selection` over every hotbar entity: each applies the digit
   * keys; the wheel reader is drained by the first, so the rest see no wheel
   * events.
   */
  method UpdateHotbarSelection(hotbars: seq<Hotbar>, input: ButtonInput, scrolls: seq<real>)
    returns (written: seq<nat>)
    requires forall i, j :: 0 <= i < j < |hotbars| ==> hotbars[i] != hotbars[j]
    modifies set h | h in hotbars
    ensures forall i :: 0 <= i < |hotbars| ==>
      hotbars[i].selected == ScrollAll(DigitSelection(old(hotbars[i].selected), input.pressed),
                                       if i == 0 then scrolls else [])
    ensures written == QueryEvents(old(Selections(hotbars)), input.pressed, scrolls)
  {
    ghost var before := Selections(hotbars);
    ghost var after := seq(|hotbars|, j requires 0 <= j < |hotbars| =>
      ScrollAll(DigitSelection(before[j], input.pressed), if j == 0 then scrolls else []));
    written := [];
    var unread := scrolls;
    for i := 0 to |hotbars|
      invariant unread == if i == 0 then scrolls else []
      invariant forall j :: 0 <= j < i ==> hotbars[j].selected == after[j]
      invariant forall j :: i <= j < |hotbars| ==> hotbars[j].selected == before[j]
      invariant written == QueryEvents(before[..i], input.pressed, scrolls)
    {
      QueryEventsStep(before, input.pressed, scrolls, i);
      var w := hotbars[i].UpdateSelection(input, unread);
      unread := [];
      written := written + w;
    }
    assert before[..|hotbars|] == before;
  }

  /** One more hotbar in the query adds its own events after those of the hotbars before it. */
  lemma QueryEventsStep(sels: seq<nat>, pressed: set<KeyCode>, ys: seq<real>, i: nat)
    requires i < |sels|
    ensures QueryEvents(sels[..i + 1], pressed, ys)
      == QueryEvents(sels[..i], pressed, ys) + HotbarEvents(sels[i], pressed, if i == 0 then ys else [])
  {
    assert sels[..i + 1][..i] == sels[..i];
  }
}
