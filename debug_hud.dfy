/**
 * The debug HUD (client/src/gui/debug/setup.rs and its older copy
 * src/gui/debug/setup.rs): an F3 visibility toggle and the texts of the
 * monitor, system and adapter lines.
 */
module DebugHud {
  import opened Wrappers
  import opened Input
  import opened Monitors
  import opened Decimal
  import opened Sequences

  /** Bevy's `Visibility`; a freshly spawned UI node has `Inherited`. */
  datatype Visibility = Inherited | Hidden | Visible

  /** Whether the debug GUI is meant to be open (the `DebugGUIState` state). */
  datatype DebugGUIState = Opened | Closed

  /** `wgpu_types::DeviceType`. */
  datatype DeviceType = Other | IntegratedGpu | DiscreteGpu | VirtualGpu | Cpu

  /** F3 shows a hidden HUD and hides it in every other state. */
  function ToggledVisibility(v: Visibility): (r: Visibility)
    ensures r == Visible <==> v == Hidden
    ensures r == Hidden <==> v != Hidden
  {
    match v
    case Hidden => Visible
    case _ => Hidden
  }

  /** Two presses restore a shown or hidden HUD; an inherited one comes back as Visible. */
  lemma ToggleTwice(v: Visibility)
    ensures ToggledVisibility(ToggledVisibility(v)) == if v == Inherited then Visible else v
  {
  }

  /** The game client spawns the HUD visible exactly when the debug GUI state is Opened. */
  function InitialVisibility(state: DebugGUIState): (r: Visibility)
    ensures r == Visible <==> state == Opened
    ensures r == Hidden <==> state == Closed
  {
    match state
    case Opened => Visible
    case Closed => Hidden
  }

  /** The HUD root entity's visibility. */
  class HudRoot {
    var visibility: Visibility

    constructor (visibility: Visibility)
      ensures this.visibility == visibility
    {
      this.visibility := visibility;
    }
  }

  /** `toggle_debug_hud` of the older client, which expects exactly one HUD root. */
  method ToggleDebugHud(root: HudRoot, input: ButtonInput)
    modifies root
    ensures F3 in input.justPressed ==> root.visibility == ToggledVisibility(old(root.visibility))
    ensures F3 !in input.justPressed ==> root.visibility == old(root.visibility)
  {
    if F3 in input.justPressed {
      root.visibility := match root.visibility
        case Hidden => Visible
        case _ => Hidden;
    }
  }

  /**
   * `toggle_debug_hud` of the game client: the query must hold exactly one HUD
   * root; otherwise an error is logged and nothing changes.
   */
  method ToggleDebugHudQuery(roots: seq<HudRoot>, input: ButtonInput)
    modifies set r | r in roots
    ensures F3 in input.justPressed && |roots| == 1 ==>
      roots[0].visibility == ToggledVisibility(old(roots[0].visibility))
    ensures F3 !in input.justPressed || |roots| != 1 ==>
      forall i :: 0 <= i < |roots| ==> roots[i].visibility == old(roots[i].visibility)
  {
    if F3 in input.justPressed {
      if |roots| == 1 {
        var vis := roots[0];
        vis.visibility := match vis.visibility
          case Hidden => Visible
          case _ => Hidden;
      }
    }
  }

  /** The adapter-type suffix: none for Other and DiscreteGpu, a parenthesised tag otherwise. */
  function DeviceSuffix(t: DeviceType): (r: string)
    ensures r == "" <==> t == Other || t == DiscreteGpu
    ensures t == IntegratedGpu ==> r == " (integrated)"
    ensures t == VirtualGpu ==> r == " (virtual)"
    ensures t == Cpu ==> r == " (cpu)"
    ensures r != "" ==> |r| >= 3 && r[..2] == " (" && r[|r| - 1] == ')'
  {
    match t
    case Other | DiscreteGpu => ""
    case IntegratedGpu => " (integrated)"
    case VirtualGpu => " (virtual)"
    case Cpu => " (cpu)"
  }

  /** The three tagged adapter types get three different tags. */
  lemma DeviceSuffixDistinguishes(t1: DeviceType, t2: DeviceType)
    requires DeviceSuffix(t1) != "" && t1 != t2
    ensures DeviceSuffix(t1) != DeviceSuffix(t2)
  {
  }

  const UNDEFINED_NAME: string := "undefined"
  const PRIMARY_TAG: string := " (primary) "

  /** The monitor's name, or "undefined" when it has none. */
  function MonitorName(m: Monitor): (r: string)
    ensures m.name.Some? ==> r == m.name.value
    ensures m.name.None? ==> r == UNDEFINED_NAME
  {
    m.name.UnwrapOr(UNDEFINED_NAME)
  }

  /** The rate part that ends every monitor line: "R hz) ". */
  function RateTail(m: Monitor): string
  {
    NatToString(RefreshHz(m.refreshRateMillihertz)) + " hz) "
  }

  /** "(W x H, " — the part of the details before the rate. */
  function DetailsHead(m: Monitor): (h: string)
    ensures |h| > 0 && h[0] == '('
  {
    "(" + NatToString(m.physicalWidth) + "x" + NatToString(m.physicalHeight) + ", "
  }

  /** "(W x H, R hz) " with the refresh rate rounded as the frame limiter rounds it. */
  function MonitorDetails(m: Monitor): (d: string)
    ensures |d| > 0 && d[0] == '('
  {
    DetailsHead(m) + RateTail(m)
  }

  /** Whether `text` carries the primary tag right after its first `at` characters. */
  predicate TaggedAt(text: string, at: nat)
  {
    at + |PRIMARY_TAG| <= |text| && text[at..at + |PRIMARY_TAG|] == PRIMARY_TAG
  }

  /**
   * One monitor's line: its name, then " (primary) " exactly when the monitor
   * is NOT the primary one (as the code is written), then its details.
   */
  function MonitorLabel(m: Monitor, isPrimary: bool): (text: string)
    ensures |MonitorName(m)| < |text| && text[..|MonitorName(m)|] == MonitorName(m)
  {
    var name := MonitorName(m);
    var text := name + (if isPrimary then "" else PRIMARY_TAG) + MonitorDetails(m);
    assert text[..|name|] == name;
    text
  }

  /** The primary tag follows the name exactly on the lines of monitors that are not primary. */
  lemma MonitorLabelTagged(m: Monitor, isPrimary: bool)
    ensures TaggedAt(MonitorLabel(m, isPrimary), |MonitorName(m)|) <==> !isPrimary
  {
    var tag := if isPrimary then "" else PRIMARY_TAG;
    TagShows(MonitorName(m), tag, MonitorDetails(m), PRIMARY_TAG);
  }

  /** Text made of `name`, then `tag` or nothing, then `rest`, shows `tag` after `name` exactly when it was put there. */
  lemma TagShows(name: string, tag: string, rest: string, t: string)
    requires |t| > 0 && |rest| > 0 && rest[0] != t[0]
    requires tag == "" || tag == t
    ensures var text := name + tag + rest;
      (|name| + |t| <= |text| && text[|name|..|name| + |t|] == t) <==> tag == t
  {
    var text := name + tag + rest;
    if tag == t {
      assert text[|name|..|name| + |t|] == t;
    } else {
      assert text[|name|] == rest[0];
    }
  }

  /** A monitor line ends in the decimal digits of the rounded refresh rate followed by " hz) ". */
  lemma MonitorLabelShowsRate(m: Monitor, isPrimary: bool)
    ensures var digits := NatToString(RefreshHz(m.refreshRateMillihertz));
      var text := MonitorLabel(m, isPrimary);
      && |digits| + 5 <= |text|
      && text[|text| - |digits| - 5..|text| - 5] == digits
      && text[|text| - 5..] == " hz) "
  {
    var head := MonitorName(m) + (if isPrimary then "" else PRIMARY_TAG);
    RateLayout(MonitorLabel(m, isPrimary), head, DetailsHead(m), NatToString(RefreshHz(m.refreshRateMillihertz)));
  }

  /** In `head + (details + (digits + " hz) "))`, the digits sit right before the final " hz) ". */
  lemma RateLayout(text: string, head: string, details: string, digits: string)
    requires text == head + (details + (digits + " hz) "))
    ensures |digits| + 5 <= |text|
    ensures text[|text| - |digits| - 5..|text| - 5] == digits
    ensures text[|text| - 5..] == " hz) "
  {
    Halves(head, details + (digits + " hz) "));
    Parts(text, |head|, details, digits + " hz) ");
    Parts(text, |head| + |details|, digits, " hz) ");
  }

  /** Reading the digits before " hz) " back gives the rounded refresh rate. */
  lemma MonitorLabelRateReadsBack(m: Monitor, isPrimary: bool)
    ensures var digits := NatToString(RefreshHz(m.refreshRateMillihertz));
      var text := MonitorLabel(m, isPrimary);
      && |digits| + 5 <= |text|
      && (forall i :: |text| - |digits| - 5 <= i < |text| - 5 ==> IsDigit(text[i]))
      && StringToNat(text[|text| - |digits| - 5..|text| - 5]) == RefreshHz(m.refreshRateMillihertz)
  {
    MonitorLabelShowsRate(m, isPrimary);
    NatToStringRoundTrip(RefreshHz(m.refreshRateMillihertz));
  }

  /** A monitor as the HUD's query yields it: the monitor and whether it has the primary marker. */
  datatype MonitorEntry = MonitorEntry(monitor: Monitor, isPrimary: bool)

  /** The monitor lines, one per monitor, in query order, each built by successive `push_str`s. */
  method MonitorSpans(entries: seq<MonitorEntry>) returns (spans: seq<string>)
    ensures |spans| == |entries|
    ensures forall i :: 0 <= i < |entries| ==>
      spans[i] == MonitorLabel(entries[i].monitor, entries[i].isPrimary)
  {
    spans := [];
    for i := 0 to |entries|
      invariant |spans| == i
      invariant forall j :: 0 <= j < i ==> spans[j] == MonitorLabel(entries[j].monitor, entries[j].isPrimary)
    {
      var m := entries[i].monitor;
      var info := m.name.UnwrapOr(UNDEFINED_NAME);
      if !entries[i].isPrimary {
        info := info + PRIMARY_TAG;
      }
      info := info + MonitorDetails(m);
      spans := spans + [info];
    }
  }

  /** `SystemInfo`: every field is already text. */
  datatype SystemInfo = SystemInfo(os: string, kernel: string, cpu: string, coreCount: string, memory: string)

  const UNKNOWN_OS: string := "Unknown"
  const DEBUG_MODE_TEXT: string := "Debug mode"

  /** "OS (kernel), cpu: CPU (xCORES), memory: MEMORY": every field, in this order, with these separators. */
  function FullSystemText(s: SystemInfo): (r: string)
    ensures SystemLaidOut(r, s)
    ensures |s.os| <= |r| && r[..|s.os|] == s.os
    ensures |s.memory| <= |r| && r[|r| - |s.memory|..] == s.memory
  {
    var r := s.os + " (" + s.kernel + "), cpu: " + s.cpu + " (x" + s.coreCount + "), memory: " + s.memory;
    SystemLayout(r, s);
    r
  }

  /**
   * `r` reads the OS, " (", the kernel, "), cpu: ", the CPU, " (x", the core
   * count, "), memory: " and the memory, in this order and nothing else.
   */
  predicate SystemLaidOut(r: string, s: SystemInfo)
  {
    var a := |s.os|;
    var b := a + |" ("|;
    var c := b + |s.kernel|;
    var d := c + |"), cpu: "|;
    var e := d + |s.cpu|;
    var f := e + |" (x"|;
    var g := f + |s.coreCount|;
    var h := g + |"), memory: "|;
    && |r| == h + |s.memory|
    && r[..a] == s.os
    && r[a..b] == " ("
    && r[b..c] == s.kernel
    && r[c..d] == "), cpu: "
    && r[d..e] == s.cpu
    && r[e..f] == " (x"
    && r[f..g] == s.coreCount
    && r[g..h] == "), memory: "
    && r[h..] == s.memory
  }

  lemma SystemLayout(r: string, s: SystemInfo)
    requires r == s.os + " (" + s.kernel + "), cpu: " + s.cpu + " (x" + s.coreCount + "), memory: " + s.memory
    ensures SystemLaidOut(r, s)
  {
    NinePieces(r, s.os, " (", s.kernel, "), cpu: ", s.cpu, " (x", s.coreCount, "), memory: ", s.memory);
  }

  /** Where each of nine concatenated pieces sits in the result. */
  lemma NinePieces(r: string, x1: string, x2: string, x3: string, x4: string, x5: string,
                   x6: string, x7: string, x8: string, x9: string)
    requires r == x1 + x2 + x3 + x4 + x5 + x6 + x7 + x8 + x9
    ensures var o2 := |x1|; var o3 := o2 + |x2|; var o4 := o3 + |x3|; var o5 := o4 + |x4|;
      var o6 := o5 + |x5|; var o7 := o6 + |x6|; var o8 := o7 + |x7|; var o9 := o8 + |x8|;
      && |r| == o9 + |x9|
      && r[..o2] == x1 && r[o2..o3] == x2 && r[o3..o4] == x3 && r[o4..o5] == x4
      && r[o5..o6] == x5 && r[o6..o7] == x6 && r[o7..o8] == x7 && r[o8..o9] == x8
      && r[o9..] == x9
  {
    var p2 := x1 + x2;
    var p3 := p2 + x3;
    var p4 := p3 + x4;
    var p5 := p4 + x5;
    var p6 := p5 + x6;
    var p7 := p6 + x7;
    var p8 := p7 + x8;
    Halves(p8, x9);
    assert r[|p8|..] == x9;
    Parts(r, 0, p7, x8);
    Parts(r, 0, p6, x7);
    Parts(r, 0, p5, x6);
    Parts(r, 0, p4, x5);
    Parts(r, 0, p3, x4);
    Parts(r, 0, p2, x3);
    Parts(r, 0, x1, x2);
  }

  /**
   * The game client's system line: the full text when the OS is known;
   * otherwise "Debug mode" in debug mode and the raw OS string ("Unknown")
   * outside it.
   */
  function ClientSystemText(s: SystemInfo, debugMode: bool): (r: string)
    ensures s.os != UNKNOWN_OS ==> r == FullSystemText(s)
    ensures s.os == UNKNOWN_OS && debugMode ==> r == DEBUG_MODE_TEXT
    ensures s.os == UNKNOWN_OS && !debugMode ==> r == UNKNOWN_OS
  {
    if s.os != UNKNOWN_OS then FullSystemText(s)
    else if !debugMode then s.os
    else DEBUG_MODE_TEXT
  }

  /** `RenderAdapterInfo`, with the backend already rendered as text. */
  datatype AdapterInfo = AdapterInfo(name: string, deviceType: DeviceType, driverInfo: string, backend: string)

  /** "NAME[suffix], DRIVER (BACKEND)": the parts appear in this order, separated as shown. */
  function AdapterLabel(a: AdapterInfo): (r: string)
    ensures LaidOut(r, a.name, DeviceSuffix(a.deviceType), a.driverInfo, a.backend)
  {
    var r := a.name + DeviceSuffix(a.deviceType) + ", " + a.driverInfo + " (" + a.backend + ")";
    AdapterLayout(r, a.name, DeviceSuffix(a.deviceType), a.driverInfo, a.backend);
    r
  }

  /** `r` reads `name`, `suffix`, ", ", `driver`, " (", `backend`, ")", in this order. */
  predicate LaidOut(r: string, name: string, suffix: string, driver: string, backend: string)
  {
    var n, sn := |name|, |name| + |suffix|;
    && |r| == sn + 2 + |driver| + 2 + |backend| + 1
    && r[..n] == name
    && r[n..sn] == suffix
    && r[sn..sn + 2] == ", "
    && r[sn + 2..sn + 2 + |driver|] == driver
    && r[sn + 2 + |driver|..sn + 4 + |driver|] == " ("
    && r[sn + 4 + |driver|..|r| - 1] == backend
    && r[|r| - 1] == ')'
  }

  lemma AdapterLayout(r: string, name: string, suffix: string, driver: string, backend: string)
    requires r == name + suffix + ", " + driver + " (" + backend + ")"
    ensures LaidOut(r, name, suffix, driver, backend)
  {
    var withSuffix := name + suffix;
    var withComma := withSuffix + ", ";
    var withDriver := withComma + driver;
    var withParen := withDriver + " (";
    var withBackend := withParen + backend;
    Halves(withBackend, ")");
    Parts(r, 0, withParen, backend);
    Parts(r, 0, withDriver, " (");
    Parts(r, 0, withComma, driver);
    Parts(r, 0, withSuffix, ", ");
    Parts(r, 0, name, suffix);
  }

  /** The texts of the HUD lines that the model covers. */
  datatype HudTexts = HudTexts(monitors: seq<string>, system: string, adapter: string)

  /**
   * `setup_debug_hud` of the game client: the root starts visible exactly when
   * the debug GUI state is Opened, and the monitor, system and adapter lines
   * are built.
   */
  method SetupDebugHud(state: DebugGUIState, entries: seq<MonitorEntry>, system: SystemInfo,
                       adapter: AdapterInfo, debugMode: bool)
    returns (root: HudRoot, texts: HudTexts)
    ensures fresh(root) && root.visibility == InitialVisibility(state)
    ensures |texts.monitors| == |entries|
    ensures forall i :: 0 <= i < |entries| ==>
      texts.monitors[i] == MonitorLabel(entries[i].monitor, entries[i].isPrimary)
    ensures texts.system == ClientSystemText(system, debugMode)
    ensures texts.adapter == AdapterLabel(adapter)
  {
    var visState := if state == Opened then Visible else Hidden;
    root := new HudRoot(visState);
    var spans := MonitorSpans(entries);
    var systemInfo: string;
    if system.os != UNKNOWN_OS {
      systemInfo := FullSystemText(system);
    } else if !debugMode {
      systemInfo := system.os;
    } else {
      systemInfo := DEBUG_MODE_TEXT;
    }
    texts := HudTexts(spans, systemInfo, AdapterLabel(adapter));
  }

  /**
   * `setup_debug_hud` of the older client: the root keeps the default
   * visibility, and the system line is always the full text. The root is
   * spawned first; then `query_window.single()` panics unless the query
   * matches exactly one window, and no texts are built.
   */
  method SetupDebugHudOlder(entries: seq<MonitorEntry>, windowCount: nat, system: SystemInfo, adapter: AdapterInfo)
    returns (root: HudRoot, texts: Option<HudTexts>)
    ensures fresh(root) && root.visibility == Inherited
    ensures texts.None? <==> windowCount != 1
    ensures texts.Some? ==> |texts.value.monitors| == |entries|
    ensures texts.Some? ==> forall i :: 0 <= i < |entries| ==>
      texts.value.monitors[i] == MonitorLabel(entries[i].monitor, entries[i].isPrimary)
    ensures texts.Some? ==> texts.value.system == FullSystemText(system)
    ensures texts.Some? ==> texts.value.adapter == AdapterLabel(adapter)
  {
    root := new HudRoot(Inherited);
    var spans := MonitorSpans(entries);
    if windowCount != 1 {
      return root, None;
    }
    texts := Some(HudTexts(spans, FullSystemText(system), AdapterLabel(adapter)));
  }
}
