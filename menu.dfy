/** The menu side of simple-shutdown.py: the ADVANCED-mode menu loop
    (checkAdvanced), its helpers doPngOverlay, doVol, doWifi, doVtx and
    doShutdown, the NORMAL-mode checkShdn, and the keypad call that feeds the
    loop.

    Shell commands, GPIO writes, the keypad device read and process exit are
    recorded as an ordered trace of effects in the `effects` field of a
    Controller. The levels read from the shutdown pin and the outcomes of the
    keypad reads are inputs. */
module Menu {
  import opened Wrappers
  import Keypad

  // Paths and pins (simple-shutdown.py:38-48)
  const ProjectDir := "/home/pi/ES-Simple-Scripts/"
  const BinDir := ProjectDir + "misc-scripts/"
  const ResourcesDir := ProjectDir + "resources/"
  const ShutdownPin := 4
  const VtxPin := 1

  // Key codes (simple-shutdown.py:74-80)
  const KeyVolUp := 103
  const KeyVolDown := 108
  const KeyShutdown := 29
  const KeyWifiEnable := 45
  const KeyWifiDisable := 44
  const KeyVtxEnable := 106
  const KeyVtxDisable := 105

  /** The overlay images the menu shows. */
  datatype Image = MenuItems | ShuttingDown | VolUp | VolDown | WifiEnable | WifiDisable | VtxEnable | VtxDisable

  function ImagePath(i: Image): string
  {
    ResourcesDir +
      match i
      case MenuItems => "menu_items.png"
      case ShuttingDown => "shutting_down.png"
      case VolUp => "vol_up.png"
      case VolDown => "vol_down.png"
      case WifiEnable => "wifi_enable.png"
      case WifiDisable => "wifi_disable.png"
      case VtxEnable => "vtx_enable.png"
      case VtxDisable => "vtx_disable.png"
  }

  /** doVol's argument, 'UP' or 'DOWN'. */
  datatype Direction = Up | Down
  /** doWifi's and doVtx's argument, 'ON' or 'OFF'. */
  datatype Switch = On | Off
  datatype Radio = Wifi | Bluetooth
  datatype PinMode = In | Out
  datatype Level = Low | High

  /** One observable action of the script, in the order it happens. */
  datatype Effect =
    | KillPngview                        // kill -9 `pidof pngview`
    | LaunchPngview(image: Image)        // pngview -b 0 -l 999999 <image path> &
    | Amixer(direction: Direction)       // sudo amixer -M set PCM 20%+ / 20%-
    | Rfkill(state: Switch, radio: Radio) // sudo rfkill unblock|block wifi|bluetooth
    | PinSetup(pin: nat, mode: PinMode)  // GPIO.setup
    | PinOutput(pin: nat, level: Level)  // GPIO.output
    | PowerOff                           // sudo shutdown -h now
    | CloseStdout
    | CloseStderr
    | Exit(status: int)                  // sys.exit
    | KeyRead(device: string)            // one readKeyPresses on the event device

  /** The string handed to os.system for the effects that are shell commands. */
  function Command(e: Effect): (r: Option<string>)
    ensures r.Some? <==> e.KillPngview? || e.LaunchPngview? || e.Amixer? || e.Rfkill? || e.PowerOff?
  {
    match e
    case KillPngview => Some("kill -9 `pidof pngview`")
    case LaunchPngview(image) => Some(BinDir + "pngview -b 0 -l 999999 " + ImagePath(image) + "&")
    case Amixer(Up) => Some("sudo amixer -M set PCM 20%+")
    case Amixer(Down) => Some("sudo amixer -M set PCM 20%-")
    case Rfkill(state, radio) =>
      Some("sudo rfkill " + (if state == On then "unblock " else "block ")
           + (if radio == Wifi then "wifi" else "bluetooth"))
    case PowerOff => Some("sudo shutdown -h now")
    case _ => None
  }

  /** The event device: /dev/input/event followed by the first command-line
      argument, or 0 when there is none (simple-shutdown.py:69). */
  function InputPath(arg: Option<string>): (p: string)
    ensures |p| >= |"/dev/input/event"| && p[..|"/dev/input/event"|] == "/dev/input/event"
    ensures p[|"/dev/input/event"|..] == if arg.Some? then arg.value else "0"
    ensures |p| > |"/dev/input/event"| <==> arg != Some("")
  {
    "/dev/input/event" + (if arg.Some? then arg.value else "0")
  }

  // ---------------------------------------------------------------------
  // The helpers' effects

  /** doPngOverlay's effects; its argument is False (None) or the path of
      one of the images, a non-empty and so truthy string. */
  function PngOverlay(overlay: Option<Image>): seq<Effect>
  {
    [KillPngview] + (if overlay.Some? then [LaunchPngview(overlay.value)] else [])
  }

  function VolEffects(d: Direction): seq<Effect>
  {
    [Amixer(d)]
  }

  function WifiEffects(s: Switch): seq<Effect>
  {
    [Rfkill(s, Wifi), Rfkill(s, Bluetooth)]
  }

  function VtxEffects(s: Switch): seq<Effect>
  {
    if s == On then [PinSetup(VtxPin, Out), PinOutput(VtxPin, Low)]
    else [PinSetup(VtxPin, Out), PinOutput(VtxPin, High), PinSetup(VtxPin, In)]
  }

  function ShutdownEffects(): seq<Effect>
  {
    [PowerOff, CloseStdout, CloseStderr, Exit(0)]
  }

  // ---------------------------------------------------------------------
  // The key dispatch of checkAdvanced (simple-shutdown.py:132-173)

  /** The keys whose branch sets `reset`. */
  predicate IsAction(key: nat)
  {
    key == KeyVolUp || key == KeyVolDown || key == KeyWifiEnable || key == KeyWifiDisable
    || key == KeyVtxEnable || key == KeyVtxDisable
  }

  predicate IsKnown(key: nat)
  {
    key == KeyShutdown || IsAction(key)
  }

  /** The image a known key shows first. */
  function KeyImage(key: nat): Image
    requires IsKnown(key)
  {
    if key == KeyShutdown then ShuttingDown
    else if key == KeyVolUp then VolUp
    else if key == KeyVolDown then VolDown
    else if key == KeyWifiEnable then WifiEnable
    else if key == KeyWifiDisable then WifiDisable
    else if key == KeyVtxEnable then VtxEnable
    else VtxDisable
  }

  /** The effects of the if/elif chain for one key. */
  function Dispatch(key: nat): seq<Effect>
  {
    if key == KeyShutdown then PngOverlay(Some(ShuttingDown)) + ShutdownEffects()
    else if key == KeyVolUp then PngOverlay(Some(VolUp)) + VolEffects(Up)
    else if key == KeyVolDown then PngOverlay(Some(VolDown)) + VolEffects(Down)
    else if key == KeyWifiEnable then PngOverlay(Some(WifiEnable)) + WifiEffects(On)
    else if key == KeyWifiDisable then PngOverlay(Some(WifiDisable)) + WifiEffects(Off)
    else if key == KeyVtxEnable then PngOverlay(Some(VtxEnable)) + VtxEffects(On)
    else if key == KeyVtxDisable then PngOverlay(Some(VtxDisable)) + VtxEffects(Off)
    else []
  }

  // ---------------------------------------------------------------------
  // The menu loop as a function of its inputs

  /** What one loop iteration is given: the outcome of the keypad read, and
      the shutdown pin level read at line 175 (true = high = menu released). */
  datatype Observation = Observation(read: Keypad.ReadOutcome, pinHigh: bool)

  /** An observation with its key decoded as readKeyPresses decodes it. */
  datatype Step = Step(key: nat, pinHigh: bool)

  function StepOf(o: Observation): Step
  {
    Step(Keypad.KeyCode(o.read), o.pinHigh)
  }

  function Decoded(obs: seq<Observation>): (steps: seq<Step>)
    ensures |steps| == |obs|
  {
    if obs == [] then [] else [StepOf(obs[0])] + Decoded(obs[1..])
  }

  lemma {:induction false} DecodedAt(obs: seq<Observation>, i: nat)
    requires i < |obs|
    ensures Decoded(obs)[i] == StepOf(obs[i])
  {
    if i > 0 {
      DecodedAt(obs[1..], i - 1);
    }
  }

  /** How a call of checkAdvanced ended. */
  datatype Status =
    | NotOpened    // the pin was high on entry
    | Closed       // the pin read high after an iteration
    | ShutDown     // the shutdown key was pressed; the process exits
    | OutOfInput   // the observations ran out while the menu was still open

  datatype Run = Run(trace: seq<Effect>, status: Status, consumed: nat)

  /** The effects of one iteration that does not shut down: the key read, its
      dispatch, the clear when the pin is high, then the menu re-shown when
      the key was an action (reset is tested after the exit test). */
  function IterationEffects(device: string, s: Step): seq<Effect>
  {
    [KeyRead(device)] + Dispatch(s.key)
    + (if s.pinHigh then PngOverlay(None) else [])
    + (if IsAction(s.key) then PngOverlay(Some(MenuItems)) else [])
  }

  /** An iteration after which the loop goes round again: no shutdown key
      and the pin still low. */
  predicate Continues(s: Step)
  {
    s.key != KeyShutdown && !s.pinHigh
  }

  /** The index of the first iteration that ends the loop, |steps| if none does. */
  function Stop(steps: seq<Step>): (n: nat)
    ensures n <= |steps|
    ensures forall j :: 0 <= j < n ==> Continues(steps[j])
    ensures n < |steps| ==> !Continues(steps[n])
  {
    if steps == [] || !Continues(steps[0]) then 0 else 1 + Stop(steps[1..])
  }

  /** The effects of the first n iterations, in order. */
  function Opened(device: string, steps: seq<Step>, n: nat): seq<Effect>
    requires n <= |steps|
  {
    if n == 0 then [] else Opened(device, steps, n - 1) + IterationEffects(device, steps[n - 1])
  }

  /** The effects of the iteration that ends the loop. */
  function Final(device: string, s: Step): seq<Effect>
  {
    if s.key == KeyShutdown then [KeyRead(device)] + Dispatch(KeyShutdown)
    else IterationEffects(device, s)
  }

  /** checkAdvanced on decoded steps: nothing when the pin is high on entry,
      otherwise the menu overlay, the iterations that continue, and the one
      that ends the loop. */
  function MenuRun(device: string, pinHighAtEntry: bool, steps: seq<Step>): Run
  {
    if pinHighAtEntry then Run([], NotOpened, 0)
    else
      var n := Stop(steps);
      var shown := PngOverlay(Some(MenuItems)) + Opened(device, steps, n);
      if n == |steps| then Run(shown, OutOfInput, n)
      else if steps[n].key == KeyShutdown then Run(shown + Final(device, steps[n]), ShutDown, n + 1)
      else Run(shown + Final(device, steps[n]), Closed, n + 1)
  }

  function AdvancedRun(device: string, pinHighAtEntry: bool, obs: seq<Observation>): Run
  {
    MenuRun(device, pinHighAtEntry, Decoded(obs))
  }

  lemma Regroup(a: seq<Effect>, b: seq<Effect>, c: seq<Effect>, d: seq<Effect>)
    ensures a + b + c == a + (b + c)
    ensures a + b + c + d == a + (b + c + d)
  {
  }

  // ---------------------------------------------------------------------
  // The script's state: the trace of what it has done

  class Controller {
    const device: string
    var effects: seq<Effect>

    constructor (arg: Option<string>)
      ensures device == InputPath(arg) && effects == []
    {
      device := InputPath(arg);
      effects := [];
    }

    /** doPngOverlay: always kill pngview, then launch a new one for a truthy argument. */
    method DoPngOverlay(overlay: Option<Image>)
      modifies this
      ensures effects == old(effects) + PngOverlay(overlay)
    {
      effects := effects + [KillPngview];
      if overlay.Some? {
        effects := effects + [LaunchPngview(overlay.value)];
      }
    }

    method DoVol(d: Direction)
      modifies this
      ensures effects == old(effects) + VolEffects(d)
    {
      effects := effects + [Amixer(d)];
    }

    method DoWifi(s: Switch)
      modifies this
      ensures effects == old(effects) + WifiEffects(s)
    {
      effects := effects + [Rfkill(s, Wifi)];
      effects := effects + [Rfkill(s, Bluetooth)];
    }

    method DoVtx(s: Switch)
      modifies this
      ensures effects == old(effects) + VtxEffects(s)
    {
      if s == On {
        effects := effects + [PinSetup(VtxPin, Out)];
        effects := effects + [PinOutput(VtxPin, Low)];
      } else {
        effects := effects + [PinSetup(VtxPin, Out)];
        effects := effects + [PinOutput(VtxPin, High)];
        effects := effects + [PinSetup(VtxPin, In)];
      }
    }

    /** doShutdown; the caller stops after it, as sys.exit ends the process. */
    method DoShutdown()
      modifies this
      ensures effects == old(effects) + ShutdownEffects()
    {
      effects := effects + [PowerOff];
      effects := effects + [CloseStdout, CloseStderr];
      effects := effects + [Exit(0)];
    }

    /** readKeyPresses: one read of the event device, reduced to a key code. */
    method ReadKeyPresses(outcome: Keypad.ReadOutcome) returns (key: nat)
      modifies this
      ensures key == Keypad.KeyCode(outcome)
      ensures effects == old(effects) + [KeyRead(device)]
    {
      effects := effects + [KeyRead(device)];
      key := Keypad.KeyCode(outcome);
    }

    /** checkShdn (NORMAL mode): shut down while the pin is held low. */
    method CheckShdn(pinHigh: bool) returns (exited: bool)
      modifies this
      ensures exited == !pinHigh
      ensures effects == old(effects) + (if pinHigh then [] else ShutdownEffects())
    {
      exited := !pinHigh;
      if exited {
        DoShutdown();
      }
    }

    /** The if/elif chain of checkAdvanced's loop on one key. `exited` stands
        for the sys.exit that ends the process after the shutdown branch. */
    method DispatchKey(key: nat) returns (reset: bool, exited: bool)
      modifies this
      ensures effects == old(effects) + Dispatch(key)
      ensures reset == IsAction(key)
      ensures exited == (key == KeyShutdown)
    {
      reset, exited := false, false;
      if key == KeyShutdown {
        DoPngOverlay(Some(ShuttingDown));
        DoShutdown();
        exited := true;
      } else if key == KeyVolUp {
        DoPngOverlay(Some(VolUp));
        DoVol(Up);
        reset := true;
      } else if key == KeyVolDown {
        DoPngOverlay(Some(VolDown));
        DoVol(Down);
        reset := true;
      } else if key == KeyWifiEnable {
        DoPngOverlay(Some(WifiEnable));
        DoWifi(On);
        reset := true;
      } else if key == KeyWifiDisable {
        DoPngOverlay(Some(WifiDisable));
        DoWifi(Off);
        reset := true;
      } else if key == KeyVtxEnable {
        DoPngOverlay(Some(VtxEnable));
        DoVtx(On);
        reset := true;
      } else if key == KeyVtxDisable {
        DoPngOverlay(Some(VtxDisable));
        DoVtx(Off);
        reset := true;
      }
    }

    /** One pass of checkAdvanced's `while looping` loop: read a key, act on
        it, clear the overlay when the pin reads high, and re-show the menu
        after an action. */
    method Iteration(o: Observation) returns (looping: bool, exited: bool)
      modifies this
      ensures exited == (StepOf(o).key == KeyShutdown)
      ensures !exited ==> looping == !o.pinHigh
      ensures effects == old(effects) + Final(device, StepOf(o))
    {
      looping := true;
      var reset;
      var key := ReadKeyPresses(o.read);
      reset, exited := DispatchKey(key);
      if exited {
        Regroup(old(effects), [KeyRead(device)], Dispatch(key), []);
        return;
      }
      ghost var dispatched := effects;
      ghost var clear := if o.pinHigh then PngOverlay(None) else [];
      if o.pinHigh {
        DoPngOverlay(None);
        looping := false;
      }
      assert effects == dispatched + clear;
      ghost var cleared := effects;
      ghost var reshow := if IsAction(key) then PngOverlay(Some(MenuItems)) else [];
      if reset {
        DoPngOverlay(Some(MenuItems));
        reset := false;
      }
      assert effects == cleared + reshow;
      Regroup(old(effects), [KeyRead(device)], Dispatch(key), clear);
      Regroup(old(effects), [KeyRead(device)] + Dispatch(key) + clear, reshow, []);
      Regroup(old(effects), [KeyRead(device)] + Dispatch(key), clear, reshow);
    }

    /** checkAdvanced, with the pin level on entry and one observation per
        loop iteration supplied by the caller. */
    method CheckAdvanced(pinHighAtEntry: bool, obs: seq<Observation>) returns (status: Status)
      modifies this
      ensures effects == old(effects) + AdvancedRun(device, pinHighAtEntry, obs).trace
      ensures status == AdvancedRun(device, pinHighAtEntry, obs).status
    {
      var state := !pinHighAtEntry;
      if !state {
        return NotOpened;
      }
      DoPngOverlay(Some(MenuItems));
      ghost var steps := Decoded(obs);
      ghost var menu := PngOverlay(Some(MenuItems));
      ghost var entry := effects;
      var looping := true;
      var i := 0;
      status := OutOfInput;
      while looping && i < |obs|
        invariant 0 <= i <= |obs|
        invariant looping ==> i <= Stop(steps) && status == OutOfInput
        invariant looping ==> effects == entry + Opened(device, steps, i)
        invariant !looping ==> effects == old(effects) + MenuRun(device, false, steps).trace
        invariant !looping ==> status == MenuRun(device, false, steps).status == Closed
        decreases |obs| - i
      {
        ghost var done := Opened(device, steps, i);
        DecodedAt(obs, i);
        var exited;
        looping, exited := Iteration(obs[i]);
        if exited {
          assert i == Stop(steps);
          Regroup(old(effects), menu, done, Final(device, steps[i]));
          return ShutDown;
        }
        ghost var step := IterationEffects(device, steps[i]);
        if looping {
          Regroup(entry, done, step, []);
          assert Opened(device, steps, i + 1) == done + step;
        } else {
          assert i == Stop(steps);
          Regroup(old(effects), menu, done, step);
          status := Closed;
        }
        i := i + 1;
      }
      if looping {
        Regroup(old(effects), menu, Opened(device, steps, i), []);
      }
    }
  }
}
