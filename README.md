# librecraft client core, modelled in Dafny

A model of the small state machines and text rules of the librecraft game client. The client is written in Rust on the Bevy engine. The model covers:

- **Hotbar selection.** A slot index 0..8 is picked by the highest held digit key. The mouse wheel moves it one slot per event, wrapping around in both directions. Every change request writes a `HotbarSelectionChanged` event.
- **GUI scale and GUI mode**, in both GUI versions (the newer `src/gui/mod.rs` and the older `src/ui/mod.rs`):
  - the bracket keys step the scale within 1..5;
  - backslash selects automatic scale;
  - Escape toggles the GUI mode (older GUI);
  - focus and mode events decide whether the cursor is grabbed and hidden.
- **Frame limiter.** The Space key cycles the `bevy_framepace` limiter. In the game client the cycle depends on the primary monitor's refresh rate, rounded up to a multiple of 10 Hz.
- **Debug HUD.** F3 toggles its visibility. The model also covers the initial visibility and how the monitor, system and adapter lines are built.
- **Handshake packet.** The reader and writer that the `def_enum!` and `packets!` macros generate for `HandshakeState` and `Handshake`.
- **Skybox image analyser.** What is written of it: the background sampling grid and its error flow.

Bevy systems that overwrite resources or components are modelled as classes whose methods modify those fields. Each such method is specified by a pure function of the old state. The properties the code promises are lemmas about those functions: ranges kept, cycles, wrap-around, round trips and text layouts. Event writers are modelled as sequences that the system appends to. Event readers are modelled as the sequence of unread events.

## Model

| member | source | states |
|---|---|---|
| Monitors.RefreshHzRounding | client/src/main.rs:216 | The rounded rate is a multiple of 10. It is the smallest such rate whose millihertz value is at least the reported rate (below it by less than 10000 mHz). It fits in a u32. |
| Monitors.MissingRateIsZero | client/src/main.rs:216 | A monitor without a refresh rate counts as 0 Hz. |
| Decimal.NatToStringDigits | client/src/gui/debug/setup.rs:87-92 | The decimal rendering of a number is all digits, with no leading zero. |
| Decimal.NatToStringRoundTrip | client/src/gui/debug/setup.rs:87-92 | Reading back the decimal rendering of a number gives the number. |
| Framepace.FromFramerate | src/debug/fps.rs:18 | `Limiter::from_framerate(r)` is a manual limiter at rate r. |
| DebugFps.NextLimiter | src/debug/fps.rs:16-20 | One press maps Auto to Off, Off to 30 fps, and any manual limiter to Auto. |
| DebugFps.ThreePressesCycle | src/debug/fps.rs:13-20 | Three presses return the limiter to the variant it started in. An Auto or Off limiter comes back exactly. |
| DebugFps.PressesModThree | src/debug/fps.rs:13-20 | From Auto or Off, the limiter after n presses depends only on n mod 3. |
| DebugFps.PressesSplit | src/debug/fps.rs:13-20 | a + b presses are a presses followed by b presses. |
| DebugFps.LimitFps | src/debug/fps.rs:9-22 | A Space press advances the limiter by one step. Without one, the limiter is unchanged. |
| ClientFrameLimit.PeriodFor | client/src/main.rs:228 | A frame period exists exactly when hz > 0. It is then the period of hz. |
| ClientFrameLimit.NextLimiter | client/src/main.rs:224-234 | Auto goes to Off and Off to 30 fps. A manual limiter already at the monitor's rate goes to Off. Any other manual limiter goes to that rate. At 0 Hz a manual limiter panics. |
| ClientFrameLimit.NeverBackToAuto | client/src/main.rs:224-234 | No applied step leads to Auto. |
| ClientFrameLimit.OffCycle | client/src/main.rs:224-234 | From Off, presses go through 30 fps and then the monitor's rate, back to Off. That takes three presses, or two when the monitor runs at 30 Hz. |
| ClientFrameLimit.LimitFps | client/src/main.rs:206-236 | Nothing changes without a Space press or without exactly one primary monitor. Otherwise the limiter takes one step at the monitor's rounded rate. A 0 Hz step on a manual limiter is reported as a panic and leaves the limiter as it was. |
| Cursor.PlayCursor | src/gui/mod.rs:87-117 | The cursor is Locked exactly when playing. It is released (None) exactly when not playing. It is visible exactly when not playing. |
| Cursor.PlayingFlags | src/gui/mod.rs:102 | A mode event means playing exactly when its mode is Closed. |
| Gui.GuiScaleToFloat | src/gui/mod.rs:43-48 | Auto(x) and Scale(x) give x. Custom(f) gives f. |
| Gui.NextScaleInRange | src/gui/mod.rs:179-200 | A scale whose step lies in 1..5 keeps it in 1..5 after a frame. |
| Gui.ScaleChangesAnnounceNextScale | src/gui/mod.rs:174-201 | A frame sends at most three scale events. It sends none exactly when the scale stays the same. Its last event carries the new scale. |
| Gui.GuiState.GuiScaleWasChanged | src/gui/mod.rs:50-58 | Appends one event carrying the current scale. |
| Gui.GuiState.ChangeGuiScale | src/gui/mod.rs:174-201 | The new scale is `NextScale`: backslash wins, then `]` below 5, then `[` above 1; any key from Auto or Custom gives Scale(1). One event is appended per applied assignment, carrying the value assigned. |
| Gui.GuiState.HandleMouse | src/gui/mod.rs:65-120 | Suppose the game is playing, pause-on-lost-focus is set and a focus event arrives. Then the mode becomes Opened, one Opened event is sent and the cursor is untouched. Otherwise the mode and its events are unchanged. Focus events (only while playing) and then every stored mode event overwrite the cursor, and the last one decides. |
| Gui.HandleMouseCursorRule | src/gui/mod.rs:74-119 | After a non-pausing run, the cursor is locked and hidden exactly when the last mode event is Closed. Without mode events, the last focus event while playing decides: locked and hidden on focus. With neither, the cursor is unchanged. |
| Ui.GuiScaleToFloat | src/ui/mod.rs:32-37 | Auto gives 2 and Scale(x) gives x. |
| Ui.NextMode | src/ui/mod.rs:81-87 | Escape gives Opened exactly from Closed and Closed exactly from Opened or Typing. Without Escape the mode is unchanged. |
| Ui.EscapeTwice | src/ui/mod.rs:81-87 | Two Escape presses restore Closed or Opened, and turn Typing into Opened. |
| Ui.ChangeAppliedIffScaleDiffers | src/ui/mod.rs:100-129 | The `scale_changed` flag is set exactly when the scale after the frame differs from the scale before. |
| Ui.NextScaleInRange | src/ui/mod.rs:101-122 | A scale whose step lies in 1..5 keeps it in 1..5 after a frame. |
| Ui.UiState.ChangeGuiMode | src/ui/mod.rs:76-93 | Escape toggles the mode and appends one event carrying the new mode. Without Escape nothing changes. |
| Ui.UiState.ChangeGuiScale | src/ui/mod.rs:95-130 | The new scale is `NextScale`. At most one event is appended, carrying the final scale, and only when the flag is set. |
| Ui.UiState.HandleMouse | src/ui/mod.rs:39-74 | Focus events overwrite the cursor only while the mode is Closed. Then each unread mode event overwrites it, and the last one decides. The mode is untouched. |
| Ui.HandleMouseCursorRule | src/ui/mod.rs:45-73 | With a mode other than Closed and no mode events, the cursor is unchanged. With mode events, it is locked and hidden exactly when the last one is Closed. |
| SkyboxImage.SamplePoints | client/src/game/world/skybox/image.rs:64-72 | Eight sample points, grid column major and grid row minor. Point 2i+j is (SampleX(i), SampleY(j)). |
| SkyboxImage.SampleXExact | client/src/game/world/skybox/image.rs:68 | Without u32 overflow, the sampled column is (2i+1)·W/8. |
| SkyboxImage.SampleXInBounds | client/src/game/world/skybox/image.rs:68 | Every sampled column lies inside the image for every u32 width from 1 up, including where the product wraps. |
| SkyboxImage.SampleYInBounds | client/src/game/world/skybox/image.rs:69 | Every sampled row lies inside the image for every u32 height from 1 up. |
| SkyboxImage.AllSamplesInBounds | client/src/game/world/skybox/image.rs:67-70 | All eight sample points lie inside a non-empty image. |
| SkyboxImage.Samples | client/src/game/world/skybox/image.rs:64-72 | Exactly eight colours, each the pixel at the matching sample point. |
| SkyboxImage.FirstSamplePoint | client/src/game/world/skybox/image.rs:74 | The first sample point is (W/8, H/6). |
| SkyboxImage.FindBackground | client/src/game/world/skybox/image.rs:63-75 | Panics exactly when the image has no pixels, because `get_pixel` is called outside it. Otherwise it succeeds with the pixel at (W/8, H/6). It never reports `BackgroundNotDetermined`. |
| SkyboxImage.FindMeasurements | client/src/game/world/skybox/image.rs:52-61 | Passes a panic or a background error on unchanged. Otherwise the measurements are empty. |
| SkyboxImage.ToImage | client/src/game/world/skybox/image.rs:48-50 | Always fails with `NetNotFound`. |
| SkyboxImage.GetSkybox | client/src/game/world/skybox/image.rs:22-40 | Never succeeds. An unresolved handle gives `AssetNotFound` and a failed conversion gives `DecodeFailed`. A converted image with no pixels panics. Every other path gives `CopyError`. |
| Hotbar.HighestHeldIsMaximum | client/src/gui/hud/hotbar.rs:113-139 | A held digit slot is found exactly when one exists. The slot found is held, and no higher slot is. |
| Hotbar.DigitSelectionUnrolled | client/src/gui/hud/hotbar.rs:113-139 | The selection after the nine digit checks equals the chain of if-then-else over the keys, highest key first. |
| Hotbar.DigitSelectionIsHighest | src/gui/hud/hotbar.rs:111-137 | With a digit held, the selection is the slot of the highest held digit. With none held, it is unchanged. |
| Hotbar.ScrollStepWraps | client/src/gui/hud/hotbar.rs:145-158 | Within 0..8, a wheel event moves the slot by ±1 modulo 9: 8 goes up to 0 and 0 goes down to 8. y = 0 leaves the slot alone. A slot above 8 goes to 0 on up and to slot − 1 on down. |
| Hotbar.ScrollRoundTrip | src/gui/hud/hotbar.rs:144-157 | Up then down, or down then up, restores a slot in 0..8. |
| Hotbar.ScrollAllIsModularSum | src/gui/hud/hotbar.rs:143-161 | A run of wheel events moves a slot in 0..8 by the net direction count modulo 9, so the slot stays in 0..8. |
| Hotbar.ScrollEvents | client/src/gui/hud/hotbar.rs:145-163 | Every wheel event writes exactly one event, including one with y = 0. |
| Hotbar.ScrollEventsTrackSelection | client/src/gui/hud/hotbar.rs:145-163 | The n-th wheel event's event carries the selection right after the first n wheel events. |
| Hotbar.HotbarEventsInRange | client/src/gui/hud/hotbar.rs:102-163 | A hotbar starting in 0..8 writes only slots in 0..8. Its last event carries its final selection. |
| Hotbar.Hotbar.SelectByDigits | client/src/gui/hud/hotbar.rs:113-139 | The nine in-order assignments leave the slot of the highest held digit, or the old slot. |
| Hotbar.Hotbar.ApplyScrolls | client/src/gui/hud/hotbar.rs:145-163 | After the wheel events the selection is `ScrollAll` of them. The events written are `ScrollEvents`. |
| Hotbar.Hotbar.UpdateSelection | client/src/gui/hud/hotbar.rs:102-163 | The digit keys are applied, then the wheel events. The events are the digit event (when a digit is held) followed by one per wheel event. |
| Hotbar.SetupHotbar | src/gui/hud/hotbar.rs:28-78 | A new hotbar starts on `HOTBAR_START_SELECTION` = 0 and announces 0. |
| Hotbar.SetupHotbarFromPlayer | client/src/gui/hud/hotbar.rs:30-80 | A new hotbar starts on the player's saved slot, unchecked, and announces it. |
| Hotbar.UpdateHotbarSelection | client/src/gui/hud/hotbar.rs:95-165 | Every hotbar applies the digit keys. The wheel events reach only the first hotbar, because the reader is drained. The events are those of each hotbar in query order. |
| DebugHud.ToggledVisibility | client/src/gui/debug/setup.rs:209-212 | F3 gives Visible exactly from Hidden, and Hidden from every other visibility. |
| DebugHud.ToggleTwice | src/gui/debug/setup.rs:174-177 | Two presses restore Hidden or Visible. Inherited comes back as Visible. |
| DebugHud.InitialVisibility | client/src/gui/debug/setup.rs:31-35 | The HUD starts Visible exactly when the debug state is Opened, and Hidden exactly when it is Closed. |
| DebugHud.ToggleDebugHud | src/gui/debug/setup.rs:168-179 | F3 toggles the root's visibility. Without F3 it is unchanged. |
| DebugHud.ToggleDebugHudQuery | client/src/gui/debug/setup.rs:202-217 | F3 toggles the visibility when there is exactly one HUD root. Otherwise no root changes. |
| DebugHud.DeviceSuffix | client/src/gui/debug/setup.rs:173-178 | Other and DiscreteGpu get no suffix, and they are the only types with none. IntegratedGpu gets " (integrated)", VirtualGpu " (virtual)" and Cpu " (cpu)". |
| DebugHud.DeviceSuffixDistinguishes | src/gui/debug/setup.rs:139-144 | The three tagged device types get three different tags. |
| DebugHud.MonitorName | client/src/gui/debug/setup.rs:80-83 | The monitor's name, or "undefined" when it has none. |
| DebugHud.MonitorDetails | client/src/gui/debug/setup.rs:87-92 | The details part opens with "(". |
| DebugHud.MonitorLabel | src/gui/debug/setup.rs:63-76 | The monitor line starts with the monitor's name. |
| DebugHud.MonitorLabelTagged | client/src/gui/debug/setup.rs:84-86 | " (primary) " follows the name exactly when the monitor is not the primary one, as the code is written. |
| DebugHud.MonitorLabelShowsRate | client/src/gui/debug/setup.rs:91 | The line ends in the decimal digits of the rounded refresh rate followed by " hz) ". |
| DebugHud.MonitorLabelRateReadsBack | src/gui/debug/setup.rs:75 | The digits before " hz) " read back as the rounded refresh rate. |
| DebugHud.MonitorSpans | client/src/gui/debug/setup.rs:79-98 | One line per monitor, in query order, each equal to `MonitorLabel`. |
| DebugHud.FullSystemText | src/gui/debug/setup.rs:120-123 | The system line is the OS, " (", the kernel, "), cpu: ", the CPU, " (x", the core count, "), memory: " and the memory, in this order and nothing else. |
| DebugHud.ClientSystemText | client/src/gui/debug/setup.rs:144-157 | A known OS gives the full line. "Unknown" gives "Debug mode" in debug builds and "Unknown" otherwise. |
| DebugHud.AdapterLabel | src/gui/debug/setup.rs:146-149 | The adapter line is laid out in order: name, suffix, ", ", driver, " (", backend, ")". |
| DebugHud.SetupDebugHud | client/src/gui/debug/setup.rs:15-200 | The root starts at `InitialVisibility`. The monitor, system and adapter lines are the ones described above. |
| DebugHud.SetupDebugHudOlder | src/gui/debug/setup.rs:15-166 | The root keeps the default visibility, Inherited. `query_window.single()` panics unless there is exactly one window, and then no texts are built. With one window, there is one line per monitor and the system line is always the full text. |
| Handshake.WithContext | src/_handshake.rs:30 | Wrapping keeps the cause and puts the new message first. |
| Handshake.Discriminant | src/_handshake.rs:150-155 | Status is 1 and Login is 2, and no other state has either value. |
| Handshake.DecodeState | src/_handshake.rs:84-121 | A failed discriminant read is wrapped in the enum's context. A read discriminant decodes exactly when it is 1 or 2, to the state with that discriminant, ending where the read ended. |
| Handshake.UnknownDiscriminantRejected | src/_handshake.rs:114-118 | Any other discriminant fails with a "no discriminant matched" error carrying the value. |
| Handshake.StateRoundTrip | src/_handshake.rs:123-145 | With a round-tripping VarInt codec, a written state reads back as itself, right after its bytes. |
| Handshake.FieldContext | src/_handshake.rs:30 | The message is the fixed head "failed to read field", then the field's name in backquotes, then the fixed tail naming the packet `Handshake`, exactly as the source formats it. |
| Handshake.FieldContextIdentifiesField | src/_handshake.rs:30 | Different fields get different context messages, so a message names its field. |
| Handshake.InField | src/_handshake.rs:29-31 | A field's successful read passes through. A failure is wrapped in that field's context. |
| Handshake.DecodeHandshake | src/_handshake.rs:22-40 | Any failure comes from a handshake field and carries its context. The read stops at the first field that fails, whichever of the four it is. That field's error is returned, wrapped in that field's context. |
| Handshake.Then | src/_handshake.rs:46 | After an earlier failure nothing changes. Otherwise a field's bytes are appended, or its error is recorded with the earlier bytes kept. |
| Handshake.EncodeInOrder | src/_handshake.rs:42-50 | A handshake is written in full exactly when every field is. Its bytes are then the fields' bytes in declaration order. |
| Handshake.FailedWriteKeepsEarlierFields | src/_handshake.rs:44-49 | When the second field fails, the first field's bytes stay and the error is the second field's. |
| Handshake.HandshakeRoundTrip | src/_handshake.rs:22-50 | With round-tripping field codecs, a fully written handshake reads back as the same handshake, ending right after its bytes, whatever surrounds them. |
| Handshake.DecodeInOrder | src/_handshake.rs:28-38 | Fields that read in order, each starting where the previous one ended, make up the handshake. |
| Handshake.ReadWith | src/_handshake.rs:29-31 | The cursor reads one value with a codec and advances past it on success. |
| Handshake.ReadHandshakeState | src/_handshake.rs:84-121 | The cursor read of a state agrees with `DecodeState`: the same outcome, the same value and the same end position. |
| Handshake.ReadHandshake | src/_handshake.rs:22-40 | The cursor read of a handshake agrees with `DecodeHandshake`. |
| Handshake.WriteWith | src/_handshake.rs:46 | A successful write appends the value's bytes. A failed one returns its error. |
| Handshake.WriteHandshakeState | src/_handshake.rs:123-145 | Appends the state's discriminant, or returns the codec's error. |
| Handshake.WriteHandshake | src/_handshake.rs:42-50 | The buffer grows by exactly `EncodeHandshake`'s bytes. The write succeeds exactly when no field failed, and otherwise returns the first field error. |

## Left out

- Floating point:
  - the automatic scale computation `update_gui_scale`;
  - centring the cursor when the GUI opens;
  - f32 precision of `Custom(f32)` (modelled as a real);
  - the fps text colours.
  Scroll amounts are reals compared with 0. A NaN scroll, which neither branch takes, is not modelled.
- `Duration::from_secs_f64(1.0 / hz)` is identified by the rate it is built from. Nanosecond rounding of two nearby rates to the same period is not modelled.
- Arithmetic overflow panics of debug builds are not modelled. The skybox sample coordinates use the wrapping u32 arithmetic of release builds.
- In the src/ tree, the `single_mut()` calls panic when there is not exactly one window or HUD root. `DebugHud.ToggleDebugHud` and the cursor updates assume the single entity exists. The panicking `query_window.single()` of the setup system is modelled by `DebugHud.SetupDebugHudOlder`.
- The primitive field codecs (VarInt, String, u16), the `ProtocolVersion` argument and the `user_type!`/`discriminant_to_literal!` macros are not part of this model. The codecs are parameters. Their round trip is a hypothesis (`Handshake.RoundTrips`), not something proved.
- Handshake.ReadWith: on a failed read the cursor is left where it was. The source's codec may have consumed bytes by then, and that is not modelled.
- Handshake.WriteWith: a failed field write appends nothing. A source codec that fails halfway may leave partial bytes.
- The display line, FPS text and focus text of the debug HUD, the text font and colours, node layout and sizes are not modelled. Neither is any logging (`info!`, `warn!`, `error!`).
- Bevy scheduling, plugins, asset loading and entity spawning are not modelled. Asset lookup and image conversion are inputs to `SkyboxImage.GetSkybox`.
- The majority vote, edge scans, alignment and face copy of the skybox analyser are not written in the source and are not modelled.
- DebugHud.MonitorLabel: its contract states only the name prefix. The tag and the rate are stated by the lemmas beside it.
- DebugHud.MonitorDetails: its contract states only the opening "(". The digits of width and height are not re-read.
- Gui.GuiState.HandleMouse: the mode event sequence is the buffer's current contents. Bevy drops events after two updates, and that is not modelled.
