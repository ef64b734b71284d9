/** What checkAdvanced promises, stated over its effect trace: the menu
    opens only on a low pin, every iteration reads exactly one key, the
    shutdown key ends everything, the menu image is re-shown after every
    action, and which overlay is left on screen when the call returns. */
module MenuProperties {
  import opened Wrappers
  import Keypad
  import opened Menu

  // ---------------------------------------------------------------------
  // The key table

  /** Each known key first shows its own image, then calls its collaborator;
      any other key, 0 included, does nothing. */
  lemma KeyTable(k: nat)
    ensures IsKnown(k) ==> |Dispatch(k)| >= 2 && Dispatch(k)[..2] == [KillPngview, LaunchPngview(KeyImage(k))]
    ensures k == KeyShutdown ==> Dispatch(k)[2..] == [PowerOff, CloseStdout, CloseStderr, Exit(0)]
    ensures k == KeyVolUp ==> Dispatch(k)[2..] == [Amixer(Up)]
    ensures k == KeyVolDown ==> Dispatch(k)[2..] == [Amixer(Down)]
    ensures k == KeyWifiEnable ==> Dispatch(k)[2..] == [Rfkill(On, Wifi), Rfkill(On, Bluetooth)]
    ensures k == KeyWifiDisable ==> Dispatch(k)[2..] == [Rfkill(Off, Wifi), Rfkill(Off, Bluetooth)]
    ensures k == KeyVtxEnable ==> Dispatch(k)[2..] == [PinSetup(1, Out), PinOutput(1, Low)]
    ensures k == KeyVtxDisable ==> Dispatch(k)[2..] == [PinSetup(1, Out), PinOutput(1, High), PinSetup(1, In)]
    ensures !IsKnown(k) ==> Dispatch(k) == [] && !IsAction(k)
  {
  }

  /** No dispatch reads a key or shows the menu image. */
  lemma DispatchFootprint(device: string, k: nat)
    ensures KeyRead(device) !in Dispatch(k)
    ensures LaunchPngview(MenuItems) !in Dispatch(k)
  {
  }

  /** Only the shutdown key powers off or exits. */
  lemma OnlyShutdownPowersOff(k: nat)
    requires k != KeyShutdown
    ensures PowerOff !in Dispatch(k) && Exit(0) !in Dispatch(k)
  {
  }

  /** How often `x` occurs in `t`. */
  function Count(x: Effect, t: seq<Effect>): nat
  {
    if t == [] then 0 else Count(x, t[..|t| - 1]) + (if t[|t| - 1] == x then 1 else 0)
  }

  lemma {:induction false} CountConcat(x: Effect, a: seq<Effect>, b: seq<Effect>)
    ensures Count(x, a + b) == Count(x, a) + Count(x, b)
  {
    if b == [] {
      assert a + b == a;
    } else {
      assert (a + b)[..|a + b| - 1] == a + b[..|b| - 1];
      assert (a + b)[|a + b| - 1] == b[|b| - 1];
      CountConcat(x, a, b[..|b| - 1]);
    }
  }

  lemma {:induction false} CountAbsent(x: Effect, t: seq<Effect>)
    requires x !in t
    ensures Count(x, t) == 0
  {
    if t != [] {
      assert t == t[..|t| - 1] + [t[|t| - 1]];
      CountAbsent(x, t[..|t| - 1]);
    }
  }

  /** Counting over the four parts of an iteration, for an effect the
      dispatch part does not hold. */
  lemma CountParts(x: Effect, read: seq<Effect>, d: seq<Effect>, clear: seq<Effect>, reshow: seq<Effect>)
    requires x !in d
    ensures Count(x, read + d + clear + reshow) == Count(x, read) + Count(x, clear) + Count(x, reshow)
  {
    CountConcat(x, read, d);
    CountConcat(x, read + d, clear);
    CountConcat(x, read + d + clear, reshow);
    CountAbsent(x, d);
  }

  /** The menu image shown by doPngOverlay: no key read, one menu_items, no power-off. */
  lemma MenuOverlayFootprint(device: string)
    ensures Count(KeyRead(device), PngOverlay(Some(MenuItems))) == 0
    ensures Count(LaunchPngview(MenuItems), PngOverlay(Some(MenuItems))) == 1
    ensures PowerOff !in PngOverlay(Some(MenuItems)) && Exit(0) !in PngOverlay(Some(MenuItems))
  {
    var menu := LaunchPngview(MenuItems);
    assert PngOverlay(Some(MenuItems)) == [KillPngview] + [menu];
    CountConcat(menu, [KillPngview], [menu]);
    CountAbsent(menu, [KillPngview]);
    CountAbsent(KeyRead(device), PngOverlay(Some(MenuItems)));
  }

  /** The clear of doPngOverlay(False): nothing but a kill. */
  lemma ClearFootprint(x: Effect)
    requires x != KillPngview
    ensures Count(x, PngOverlay(None)) == 0 && x !in PngOverlay(None)
  {
    CountAbsent(x, PngOverlay(None));
  }

  /** One iteration reads exactly one key. */
  lemma IterationReads(device: string, s: Step)
    ensures Count(KeyRead(device), IterationEffects(device, s)) == 1
  {
    var read := [KeyRead(device)];
    var clear := if s.pinHigh then PngOverlay(None) else [];
    var reshow := if IsAction(s.key) then PngOverlay(Some(MenuItems)) else [];
    DispatchFootprint(device, s.key);
    CountParts(KeyRead(device), read, Dispatch(s.key), clear, reshow);
    ClearFootprint(KeyRead(device));
    MenuOverlayFootprint(device);
  }

  /** One iteration shows menu_items once if its key was an action, never otherwise. */
  lemma IterationMenus(device: string, s: Step)
    ensures Count(LaunchPngview(MenuItems), IterationEffects(device, s)) == if IsAction(s.key) then 1 else 0
  {
    var read := [KeyRead(device)];
    var clear := if s.pinHigh then PngOverlay(None) else [];
    var reshow := if IsAction(s.key) then PngOverlay(Some(MenuItems)) else [];
    DispatchFootprint(device, s.key);
    CountParts(LaunchPngview(MenuItems), read, Dispatch(s.key), clear, reshow);
    ClearFootprint(LaunchPngview(MenuItems));
    MenuOverlayFootprint(device);
    CountAbsent(LaunchPngview(MenuItems), read);
  }

  /** An iteration without the shutdown key neither powers off nor exits. */
  lemma IterationKeepsRunning(device: string, s: Step)
    requires s.key != KeyShutdown
    ensures PowerOff !in IterationEffects(device, s) && Exit(0) !in IterationEffects(device, s)
  {
    OnlyShutdownPowersOff(s.key);
    ClearFootprint(PowerOff);
    ClearFootprint(Exit(0));
    MenuOverlayFootprint(device);
  }

  // ---------------------------------------------------------------------
  // Entry and exit of the loop

  /** The menu opens exactly when the pin reads low; then its image is shown
      before the first key is read. */
  lemma MenuOpensOnLowPin(device: string, pinHighAtEntry: bool, steps: seq<Step>)
    ensures var r := MenuRun(device, pinHighAtEntry, steps);
      (r.trace == [] <==> pinHighAtEntry) &&
      (pinHighAtEntry ==> r.status == NotOpened && r.consumed == 0) &&
      (!pinHighAtEntry ==> r.trace[..2] == [KillPngview, LaunchPngview(MenuItems)]) &&
      (!pinHighAtEntry && steps != [] ==> r.trace[2] == KeyRead(device))
  {
    if !pinHighAtEntry {
      var n := Stop(steps);
      var menu := PngOverlay(Some(MenuItems));
      RunParts(device, steps);
      assert menu == [KillPngview, LaunchPngview(MenuItems)];
      if n > 0 {
        OpenedStartsWithRead(device, steps, n);
      } else if steps != [] {
        assert Opened(device, steps, n) == [];
        assert Ending(device, steps)[0] == KeyRead(device);
      }
    }
  }

  lemma OpenedStartsWithRead(device: string, steps: seq<Step>, n: nat)
    requires 0 < n <= |steps|
    ensures |Opened(device, steps, n)| > 0 && Opened(device, steps, n)[0] == KeyRead(device)
  {
  }

  /** The iteration that ends the loop, if one did before the observations ran out. */
  function Ending(device: string, steps: seq<Step>): seq<Effect>
  {
    var n := Stop(steps);
    if n < |steps| then Final(device, steps[n]) else []
  }

  /** The number of iterations a call runs: up to and including the one
      that ends the loop. */
  function Consumed(steps: seq<Step>): nat
  {
    if Stop(steps) < |steps| then Stop(steps) + 1 else Stop(steps)
  }

  /** The trace of an opened menu, in three parts: the menu image, the
      iterations that go round, and the one that ends the loop. */
  lemma RunParts(device: string, steps: seq<Step>)
    ensures var r := MenuRun(device, false, steps);
      r.trace == PngOverlay(Some(MenuItems)) + Opened(device, steps, Stop(steps)) + Ending(device, steps) &&
      r.consumed == Consumed(steps) &&
      r.status == if Stop(steps) == |steps| then OutOfInput
                  else if steps[Stop(steps)].key == KeyShutdown then ShutDown
                  else Closed
  {
  }

  /** The loop goes round while the pin stays low and no shutdown key comes,
      and ends on the first iteration where either happens. */
  lemma LoopExit(device: string, pinHighAtEntry: bool, steps: seq<Step>)
    ensures var r := MenuRun(device, pinHighAtEntry, steps);
      r.consumed <= |steps| &&
      (r.status == NotOpened <==> pinHighAtEntry) &&
      (forall j :: 0 <= j < r.consumed - 1 ==> Continues(steps[j])) &&
      (r.status == OutOfInput ==> r.consumed == |steps| && forall j :: 0 <= j < |steps| ==> Continues(steps[j])) &&
      (r.status == ShutDown ==> r.consumed > 0 && steps[r.consumed - 1].key == KeyShutdown) &&
      (r.status == Closed ==> r.consumed > 0 && steps[r.consumed - 1].pinHigh && steps[r.consumed - 1].key != KeyShutdown)
  {
  }

  /** The iteration that ends the loop: one key read, the menu image only
      after an action, and power-off exactly on the shutdown key. */
  lemma FinalFootprint(device: string, s: Step)
    ensures Count(KeyRead(device), Final(device, s)) == 1
    ensures Count(LaunchPngview(MenuItems), Final(device, s)) == if IsAction(s.key) then 1 else 0
    ensures PowerOff in Final(device, s) <==> s.key == KeyShutdown
    ensures Exit(0) in Final(device, s) <==> s.key == KeyShutdown
    ensures s.key == KeyShutdown ==> Final(device, s) == [KeyRead(device), KillPngview, LaunchPngview(ShuttingDown),
                                                          PowerOff, CloseStdout, CloseStderr, Exit(0)]
  {
    if s.key == KeyShutdown {
      var f := Final(device, s);
      assert f == [KeyRead(device), KillPngview, LaunchPngview(ShuttingDown),
                   PowerOff, CloseStdout, CloseStderr, Exit(0)];
      assert f[3] == PowerOff && f[6] == Exit(0);
      CountConcat(KeyRead(device), [KeyRead(device)], f[1..]);
      CountAbsent(KeyRead(device), f[1..]);
      CountAbsent(LaunchPngview(MenuItems), f);
    } else {
      IterationReads(device, s);
      IterationMenus(device, s);
      IterationKeepsRunning(device, s);
    }
  }

  // ---------------------------------------------------------------------
  // One key read per iteration

  lemma ReadsInOpened(device: string, steps: seq<Step>, n: nat)
    requires n <= |steps|
    ensures Count(KeyRead(device), Opened(device, steps, n)) == n
  {
    if n > 0 {
      ReadsInOpened(device, steps, n - 1);
      IterationReads(device, steps[n - 1]);
      CountConcat(KeyRead(device), Opened(device, steps, n - 1), IterationEffects(device, steps[n - 1]));
    }
  }

  /** Every iteration calls readKeyPresses exactly once, and no key is read
      before the menu opens or after the loop ends. */
  lemma ReadsPerIteration(device: string, pinHighAtEntry: bool, steps: seq<Step>)
    ensures var r := MenuRun(device, pinHighAtEntry, steps);
      Count(KeyRead(device), r.trace) == r.consumed && r.consumed <= |steps|
  {
    if !pinHighAtEntry {
      var key := KeyRead(device);
      var n := Stop(steps);
      var menu := PngOverlay(Some(MenuItems));
      var shown := menu + Opened(device, steps, n);
      RunParts(device, steps);
      ReadsInOpened(device, steps, n);
      MenuOverlayFootprint(device);
      CountConcat(key, menu, Opened(device, steps, n));
      CountConcat(key, shown, Ending(device, steps));
      if n < |steps| {
        FinalFootprint(device, steps[n]);
      }
    }
  }

  // ---------------------------------------------------------------------
  // The shutdown key is terminal

  lemma NoPowerOffInOpened(device: string, steps: seq<Step>, n: nat)
    requires n <= Stop(steps)
    ensures PowerOff !in Opened(device, steps, n) && Exit(0) !in Opened(device, steps, n)
  {
    if n > 0 {
      NoPowerOffInOpened(device, steps, n - 1);
      IterationKeepsRunning(device, steps[n - 1]);
    }
  }

  lemma PowerOffInParts(device: string, steps: seq<Step>)
    ensures var t := PngOverlay(Some(MenuItems)) + Opened(device, steps, Stop(steps)) + Ending(device, steps);
      var down := Stop(steps) < |steps| && steps[Stop(steps)].key == KeyShutdown;
      (PowerOff in t <==> down) && (Exit(0) in t <==> down) &&
      (down ==>
         |t| >= 7 &&
         t[|t| - 7..] == [KeyRead(device), KillPngview, LaunchPngview(ShuttingDown),
                          PowerOff, CloseStdout, CloseStderr, Exit(0)])
  {
    var n := Stop(steps);
    var shown := PngOverlay(Some(MenuItems)) + Opened(device, steps, n);
    NoPowerOffInOpened(device, steps, n);
    MenuOverlayFootprint(device);
    assert PowerOff !in shown && Exit(0) !in shown;
    if n < |steps| {
      var f := Final(device, steps[n]);
      FinalFootprint(device, steps[n]);
      if steps[n].key == KeyShutdown {
        assert Ending(device, steps) == f;
        assert (shown + f)[|shown + f| - 7..] == f;
      }
    } else {
      assert Ending(device, steps) == [];
    }
  }

  /** The system is powered off exactly when the shutdown key was read, and
      then the trace ends with the shutting_down overlay, the shutdown
      command and the exit: nothing is shown or read after it. */
  lemma ShutdownIsTerminal(device: string, pinHighAtEntry: bool, steps: seq<Step>)
    ensures var r := MenuRun(device, pinHighAtEntry, steps);
      (PowerOff in r.trace <==> r.status == ShutDown) &&
      (Exit(0) in r.trace <==> r.status == ShutDown) &&
      (r.status == ShutDown ==>
        |r.trace| >= 7 &&
        r.trace[|r.trace| - 7..] == [KeyRead(device), KillPngview, LaunchPngview(ShuttingDown),
                                     PowerOff, CloseStdout, CloseStderr, Exit(0)])
  {
    if !pinHighAtEntry {
      RunParts(device, steps);
      PowerOffInParts(device, steps);
    }
  }

  // ---------------------------------------------------------------------
  // The menu image is re-shown after every action

  /** The number of action keys (volume, wifi, vtx) among the steps. */
  function Actions(steps: seq<Step>): nat
  {
    if steps == [] then 0
    else Actions(steps[..|steps| - 1]) + (if IsAction(steps[|steps| - 1].key) then 1 else 0)
  }

  lemma ActionsPrefix(steps: seq<Step>, n: nat)
    requires n < |steps|
    ensures Actions(steps[..n + 1]) == Actions(steps[..n]) + (if IsAction(steps[n].key) then 1 else 0)
  {
    assert steps[..n + 1][..n] == steps[..n];
  }

  lemma MenuItemsInOpened(device: string, steps: seq<Step>, n: nat)
    requires n <= |steps|
    ensures Count(LaunchPngview(MenuItems), Opened(device, steps, n)) == Actions(steps[..n])
  {
    if n > 0 {
      MenuItemsInOpened(device, steps, n - 1);
      IterationMenus(device, steps[n - 1]);
      CountConcat(LaunchPngview(MenuItems), Opened(device, steps, n - 1), IterationEffects(device, steps[n - 1]));
      ActionsPrefix(steps, n - 1);
    }
  }

  lemma MenuItemsInParts(device: string, steps: seq<Step>)
    ensures Consumed(steps) <= |steps|
    ensures Count(LaunchPngview(MenuItems), PngOverlay(Some(MenuItems)) + Opened(device, steps, Stop(steps)) + Ending(device, steps))
         == 1 + Actions(steps[..Consumed(steps)])
  {
    var image := LaunchPngview(MenuItems);
    var n := Stop(steps);
    var menu := PngOverlay(Some(MenuItems));
    var shown := menu + Opened(device, steps, n);
    MenuItemsInOpened(device, steps, n);
    MenuOverlayFootprint(device);
    CountConcat(image, menu, Opened(device, steps, n));
    CountConcat(image, shown, Ending(device, steps));
    assert Count(image, shown) == 1 + Actions(steps[..n]);
    if n < |steps| {
      FinalFootprint(device, steps[n]);
      ActionsPrefix(steps, n);
      assert Count(image, Ending(device, steps)) == if IsAction(steps[n].key) then 1 else 0;
    } else {
      assert Ending(device, steps) == [];
    }
  }

  /** menu_items is launched once on entry and once more after each action
      read, including an action in the iteration that closes the menu. */
  lemma MenuReshownAfterEachAction(device: string, steps: seq<Step>)
    ensures var r := MenuRun(device, false, steps);
      Count(LaunchPngview(MenuItems), r.trace) == 1 + Actions(steps[..r.consumed])
  {
    RunParts(device, steps);
    MenuItemsInParts(device, steps);
  }

  // ---------------------------------------------------------------------
  // What is left on screen

  /** The pngview overlays alive after one effect. */
  function AfterEffect(alive: set<Image>, e: Effect): set<Image>
  {
    match e
    case KillPngview => {}
    case LaunchPngview(i) => alive + {i}
    case _ => alive
  }

  /** The pngview overlays alive after a trace, starting from `alive`. */
  function Showing(alive: set<Image>, t: seq<Effect>): set<Image>
    decreases |t|
  {
    if t == [] then alive else Showing(AfterEffect(alive, t[0]), t[1..])
  }

  lemma {:induction false} ShowingConcat(alive: set<Image>, a: seq<Effect>, b: seq<Effect>)
    decreases |a|
    ensures Showing(alive, a + b) == Showing(Showing(alive, a), b)
  {
    if a == [] {
      assert a + b == b;
    } else {
      assert (a + b)[0] == a[0];
      assert (a + b)[1..] == a[1..] + b;
      ShowingConcat(AfterEffect(alive, a[0]), a[1..], b);
    }
  }

  lemma ShowingOne(alive: set<Image>, e: Effect)
    ensures Showing(alive, [e]) == AfterEffect(alive, e)
  {
    assert [e][1..] == [];
  }

  /** An effect that neither kills nor launches pngview. */
  predicate Inert(e: Effect)
  {
    !e.KillPngview? && !e.LaunchPngview?
  }

  lemma {:induction false} ShowingInert(alive: set<Image>, t: seq<Effect>)
    requires forall i :: 0 <= i < |t| ==> Inert(t[i])
    decreases |t|
    ensures Showing(alive, t) == alive
  {
    if t != [] {
      assert Inert(t[0]);
      assert forall i :: 0 <= i < |t[1..]| ==> Inert(t[1..][i]) by {
        forall i | 0 <= i < |t[1..]| ensures Inert(t[1..][i]) {
          assert t[1..][i] == t[i + 1];
        }
      }
      ShowingInert(alive, t[1..]);
    }
  }

  /** doPngOverlay leaves exactly its image, or nothing, on screen. */
  lemma ShowingOverlay(alive: set<Image>, overlay: Option<Image>)
    ensures Showing(alive, PngOverlay(overlay)) == if overlay.Some? then {overlay.value} else {}
  {
    ShowingOne(alive, KillPngview);
    if overlay.Some? {
      ShowingConcat(alive, [KillPngview], [LaunchPngview(overlay.value)]);
      ShowingOne({}, LaunchPngview(overlay.value));
    }
  }

  /** An overlay followed by commands that leave pngview alone. */
  lemma ShowingOverlayThen(alive: set<Image>, img: Image, tail: seq<Effect>)
    requires forall i :: 0 <= i < |tail| ==> Inert(tail[i])
    ensures Showing(alive, PngOverlay(Some(img)) + tail) == {img}
  {
    ShowingConcat(alive, PngOverlay(Some(img)), tail);
    ShowingOverlay(alive, Some(img));
    ShowingInert({img}, tail);
  }

  /** A known key leaves its own image on screen; any other key changes nothing. */
  lemma ShowingDispatch(alive: set<Image>, k: nat)
    ensures Showing(alive, Dispatch(k)) == if IsKnown(k) then {KeyImage(k)} else alive
  {
    if k == KeyShutdown {
      ShowingOverlayThen(alive, ShuttingDown, ShutdownEffects());
    } else if k == KeyVolUp {
      ShowingOverlayThen(alive, VolUp, VolEffects(Up));
    } else if k == KeyVolDown {
      ShowingOverlayThen(alive, VolDown, VolEffects(Down));
    } else if k == KeyWifiEnable {
      ShowingOverlayThen(alive, WifiEnable, WifiEffects(On));
    } else if k == KeyWifiDisable {
      ShowingOverlayThen(alive, WifiDisable, WifiEffects(Off));
    } else if k == KeyVtxEnable {
      ShowingOverlayThen(alive, VtxEnable, VtxEffects(On));
    } else if k == KeyVtxDisable {
      ShowingOverlayThen(alive, VtxDisable, VtxEffects(Off));
    }
  }

  lemma ShowingIteration(alive: set<Image>, device: string, s: Step)
    requires s.key != KeyShutdown
    ensures Showing(alive, IterationEffects(device, s)) ==
      if IsAction(s.key) then {MenuItems}
      else if s.pinHigh then {}
      else alive
  {
    var d := [KeyRead(device)] + Dispatch(s.key);
    var clear := if s.pinHigh then PngOverlay(None) else [];
    var reshow := if IsAction(s.key) then PngOverlay(Some(MenuItems)) else [];
    ShowingOne(alive, KeyRead(device));
    ShowingConcat(alive, [KeyRead(device)], Dispatch(s.key));
    ShowingDispatch(alive, s.key);
    ShowingConcat(alive, d, clear);
    ShowingOverlay(Showing(alive, d), None);
    ShowingConcat(alive, d + clear, reshow);
    ShowingOverlay(Showing(alive, d + clear), Some(MenuItems));
  }

  /** While the menu is open, menu_items is the one overlay on screen
      between iterations. */
  lemma MenuStaysUp(alive: set<Image>, device: string, steps: seq<Step>, n: nat)
    requires n <= Stop(steps)
    ensures Showing(alive, PngOverlay(Some(MenuItems)) + Opened(device, steps, n)) == {MenuItems}
  {
    var menu := PngOverlay(Some(MenuItems));
    if n == 0 {
      assert menu + Opened(device, steps, 0) == menu;
      ShowingOverlay(alive, Some(MenuItems));
    } else {
      MenuStaysUp(alive, device, steps, n - 1);
      var before := menu + Opened(device, steps, n - 1);
      assert menu + Opened(device, steps, n) == before + IterationEffects(device, steps[n - 1]);
      ShowingConcat(alive, before, IterationEffects(device, steps[n - 1]));
      ShowingIteration({MenuItems}, device, steps[n - 1]);
    }
  }

  /** The overlay left on screen by checkAdvanced. When the pin reads high in
      an iteration that acted on a key, the clear is followed by menu_items,
      so the menu image stays up after the menu has closed. */
  lemma OverlayAfterCheckAdvanced(alive: set<Image>, device: string, pinHighAtEntry: bool, steps: seq<Step>)
    ensures var r := MenuRun(device, pinHighAtEntry, steps);
      (r.status == NotOpened ==> Showing(alive, r.trace) == alive) &&
      (r.status == OutOfInput ==> Showing(alive, r.trace) == {MenuItems}) &&
      (r.status == ShutDown ==> Showing(alive, r.trace) == {ShuttingDown}) &&
      (r.status == Closed ==>
         0 < r.consumed <= |steps| &&
         Showing(alive, r.trace) == if IsAction(steps[r.consumed - 1].key) then {MenuItems} else {}) &&
      (!pinHighAtEntry ==> |Showing(alive, r.trace)| <= 1)
  {
    if !pinHighAtEntry {
      var n := Stop(steps);
      var shown := PngOverlay(Some(MenuItems)) + Opened(device, steps, n);
      MenuStaysUp(alive, device, steps, n);
      if n < |steps| {
        var s := steps[n];
        ShowingConcat(alive, shown, Final(device, s));
        if s.key == KeyShutdown {
          ShowingConcat({MenuItems}, [KeyRead(device)], Dispatch(KeyShutdown));
          ShowingDispatch({MenuItems}, KeyShutdown);
        } else {
          ShowingIteration({MenuItems}, device, s);
        }
      }
    }
  }

  // ---------------------------------------------------------------------
  // Whole calls on raw keypad records

  lemma DecodedOne(o: Observation, rest: seq<Observation>)
    ensures Decoded([o] + rest)[0] == StepOf(o)
  {
    DecodedAt([o] + rest, 0);
  }

  /** The shutdown key, whatever its timestamps, type and value, pressed while
      the menu is open: menu_items, then shutting_down, then the shutdown
      command and the exit; later observations are never read. */
  lemma ShutdownKeyScenario(device: string, e: Keypad.InputEvent, pinHigh: bool, rest: seq<Observation>)
    requires e.Fits() && e.code == KeyShutdown
    ensures AdvancedRun(device, false, [Observation(Keypad.Read(Keypad.Pack(e)), pinHigh)] + rest) ==
      Run([KillPngview, LaunchPngview(MenuItems), KeyRead(device),
           KillPngview, LaunchPngview(ShuttingDown), PowerOff, CloseStdout, CloseStderr, Exit(0)],
          ShutDown, 1)
  {
    var o := Observation(Keypad.Read(Keypad.Pack(e)), pinHigh);
    Keypad.PackedKeyRoundTrip(e);
    DecodedOne(o, rest);
  }

  /** Volume up in the iteration where the pin goes high: one amixer call,
      the overlays menu_items, vol_up, the clear, and menu_items again. */
  lemma VolumeUpScenario(device: string, e: Keypad.InputEvent, rest: seq<Observation>)
    requires e.Fits() && e.code == KeyVolUp
    ensures AdvancedRun(device, false, [Observation(Keypad.Read(Keypad.Pack(e)), true)] + rest) ==
      Run([KillPngview, LaunchPngview(MenuItems), KeyRead(device),
           KillPngview, LaunchPngview(VolUp), Amixer(Up),
           KillPngview,
           KillPngview, LaunchPngview(MenuItems)],
          Closed, 1)
  {
    var o := Observation(Keypad.Read(Keypad.Pack(e)), true);
    Keypad.PackedKeyRoundTrip(e);
    DecodedOne(o, rest);
  }

  /** A separator record read as the pin goes high: no command, only the clear. */
  lemma SeparatorScenario(device: string, tvSec: int, tvUsec: int, rest: seq<Observation>)
    requires Keypad.InputEvent(tvSec, tvUsec, 0, 0, 0).Fits()
    ensures AdvancedRun(device, false, [Observation(Keypad.Read(Keypad.Pack(Keypad.InputEvent(tvSec, tvUsec, 0, 0, 0))), true)] + rest) ==
      Run([KillPngview, LaunchPngview(MenuItems), KeyRead(device), KillPngview], Closed, 1)
  {
    var o := Observation(Keypad.Read(Keypad.Pack(Keypad.InputEvent(tvSec, tvUsec, 0, 0, 0))), true);
    Keypad.SeparatorIsNoKey(tvSec, tvUsec);
    DecodedOne(o, rest);
  }
}
