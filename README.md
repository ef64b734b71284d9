# simple-shutdown: the keypad menu, modelled and verified in Dafny

`misc-scripts/simple-shutdown.py` runs on a Raspberry Pi handheld. In ADVANCED mode,
`checkAdvanced` watches the shutdown pin. While the pin is held low it opens an on-screen
menu (a `pngview` overlay) and reads keys from a Linux input-event device. Each key shows an
overlay and runs a command:

- 103 and 108 change the volume (`amixer`);
- 45 and 44 turn the wifi and bluetooth radios on and off (`rfkill`);
- 106 and 105 switch the video transmitter on GPIO pin 1;
- 29 powers the system off and exits.

After each volume, wifi or vtx action the menu image is shown again. The menu closes when the pin reads high.

This project models that core:

- `wrappers.dfy` (module `Wrappers`) holds the `Option` type.
- `keypad.dfy` (module `Keypad`) models `readKeyPresses`. It packs and unpacks one `struct input_event` record with the format `'llHHI'` and reduces it to a key code. The layout is fixed to the 64-bit little-endian one: two signed 8-byte longs, two unsigned 2-byte shorts and an unsigned 4-byte int, 24 bytes with no padding. A read is one of:
  - `OpenFailed`, when the device cannot be opened;
  - `TimedOut`, when the one-second alarm or any other exception interrupts the read;
  - `Read(bytes)`, the bytes returned, possibly fewer than 24.
- `menu.dfy` (module `Menu`) holds the effect trace, the key dispatch and the specification `MenuRun`/`AdvancedRun` of one call of `checkAdvanced`. It also holds the class `Menu.Controller`, whose `effects` field is the ordered trace of what the script does. Its methods mirror the Python functions, and `CheckAdvanced` is a `while` loop proved to produce exactly the trace and status of `AdvancedRun`.
- `menu_properties.dfy` (module `MenuProperties`) proves what the loop promises:
  - the menu opens only on a low pin;
  - each iteration reads exactly one key;
  - the shutdown key is terminal;
  - `menu_items` is re-shown after every action;
  - the overlay left on screen is determined.

  It also proves the exact trace of three whole calls on packed records.
- `misc.dfy` (module `Misc`) models `clamp`.

Effects are recorded, not performed:

- Shell commands become `KillPngview`, `LaunchPngview(image)`, `Amixer(direction)`, `Rfkill(state, radio)` and `PowerOff`. `Menu.Command` gives the exact `os.system` string of each.
- GPIO writes become `PinSetup(pin, mode)` and `PinOutput(pin, level)`.
- The stream closes become `CloseStdout` and `CloseStderr`, and `sys.exit(0)` becomes `Exit(0)`.
- A keypad read becomes `KeyRead(device)`.

The pin levels and the read outcomes are inputs. `CheckAdvanced` takes the pin level on entry and one observation per loop iteration: the read outcome and the pin level at line 175. If the observations run out while the menu is still open, the result is `OutOfInput`.

The code is followed where it departs from what the menu is meant to do:

- `menu_items` is launched once on entry and again after every action. It is not shown only once per opening of the menu (`MenuProperties.MenuReshownAfterEachAction`).
- Closing the menu issues the clear (`kill` only). In an iteration that also acted on a key, `reset` is tested after the exit test, so a fresh `menu_items` overlay follows the clear and stays on screen after the menu has closed (`MenuProperties.OverlayAfterCheckAdvanced`, `MenuProperties.VolumeUpScenario`).
- A separator record and every failed read both give key 0. Nothing tells them apart (`Keypad.NoKeyIff`).

## Model

| member | source | states |
|---|---|---|
| Keypad.Unpack | misc-scripts/simple-shutdown.py:196 | `struct.unpack('llHHI', data)` succeeds exactly on 24 bytes, and its fields lie in the ranges of their C types |
| Keypad.Pack | misc-scripts/simple-shutdown.py:71-72 | a record that fits the layout packs into exactly 24 bytes |
| Keypad.UnpackPack | misc-scripts/simple-shutdown.py:71-72 | unpacking a packed record gives the record back |
| Keypad.PackUnpack | misc-scripts/simple-shutdown.py:71-72 | every 24-byte string is the packing of what it unpacks to |
| Keypad.UnsignedRoundTrip | misc-scripts/simple-shutdown.py:71 | a little-endian unsigned field decodes to the value encoded in it |
| Keypad.SignedRoundTrip | misc-scripts/simple-shutdown.py:71 | a two's-complement long decodes to the value encoded in it |
| Keypad.NonzeroKeyIsCode | misc-scripts/simple-shutdown.py:196-200 | a non-zero key comes only from a complete record and is its 16-bit code field |
| Keypad.SeparatorIsNoKey | misc-scripts/simple-shutdown.py:198-203 | a record with type, code and value all zero gives 0, whatever its timestamps |
| Keypad.PackedKeyRoundTrip | misc-scripts/simple-shutdown.py:196-200 | any other record gives exactly its code, whatever its type and value (a release with value 0 included) |
| Keypad.FailedReadIsNoKey | misc-scripts/simple-shutdown.py:187-212 | an open failure, a timeout, or a short or long read gives 0 and raises nothing |
| Keypad.NoKeyIff | misc-scripts/simple-shutdown.py:186-212 | 0 is returned if and only if the read failed, was not 24 bytes, or its code bytes are zero |
| Menu.InputPath | misc-scripts/simple-shutdown.py:69 | the device path is `/dev/input/event` followed by the first argument, or by `0` when none is given; it is longer than the prefix unless the argument is empty |
| Menu.Command | misc-scripts/simple-shutdown.py:280-338 | exactly the overlay, volume, rfkill and shutdown effects are `os.system` commands; GPIO, stream closes, exit and key reads are not |
| Menu.Stop | misc-scripts/simple-shutdown.py:129-177 | the index of the first iteration that ends the loop: all earlier ones neither read the shutdown key nor saw the pin high, and that one does one or the other |
| Menu.Controller.constructor | misc-scripts/simple-shutdown.py:69 | the controller reads from the device named on the command line and starts with an empty trace |
| Menu.Controller.DoPngOverlay | misc-scripts/simple-shutdown.py:329-338 | `pngview` is always killed first; a new one is launched with the image only for a truthy argument |
| Menu.Controller.DoVol | misc-scripts/simple-shutdown.py:293-297 | one `amixer` command in the given direction |
| Menu.Controller.DoWifi | misc-scripts/simple-shutdown.py:314-320 | rfkill for wifi, then for bluetooth, both unblocked for ON and both blocked for OFF |
| Menu.Controller.DoVtx | misc-scripts/simple-shutdown.py:302-309 | pin 1 set to output then LOW for ON; to output, HIGH, then input for OFF |
| Menu.Controller.DoShutdown | misc-scripts/simple-shutdown.py:280-290 | `sudo shutdown -h now`, stdout and stderr closed, then exit with status 0 |
| Menu.Controller.ReadKeyPresses | misc-scripts/simple-shutdown.py:186-212 | one read of the device, returning the key that `Keypad.KeyCode` decodes from its outcome |
| Menu.Controller.CheckShdn | misc-scripts/simple-shutdown.py:215-219 | shuts down and exits exactly when the pin reads low; does nothing otherwise |
| Menu.Controller.DispatchKey | misc-scripts/simple-shutdown.py:132-173 | the if/elif chain appends the key's dispatch; `reset` is set exactly for the six action keys; the process exits exactly on key 29 |
| Menu.Controller.Iteration | misc-scripts/simple-shutdown.py:129-183 | one loop pass: it exits on key 29; otherwise it keeps looping exactly while the pin stays low; it appends the read, the dispatch, the clear when the pin is high, and then `menu_items` after an action |
| Menu.Controller.CheckAdvanced | misc-scripts/simple-shutdown.py:123-183 | the loop produces exactly the trace and status of `AdvancedRun` on the decoded observations |
| MenuProperties.KeyTable | misc-scripts/simple-shutdown.py:132-173 | each known key shows its own image, then runs its collaborator's exact commands; any other key, 0 included, does nothing and is no action |
| MenuProperties.DispatchFootprint | misc-scripts/simple-shutdown.py:132-173 | no key's dispatch reads a key or shows `menu_items` |
| MenuProperties.OnlyShutdownPowersOff | misc-scripts/simple-shutdown.py:132-173 | no key but 29 powers off or exits |
| MenuProperties.IterationReads | misc-scripts/simple-shutdown.py:129-183 | one iteration reads exactly one key |
| MenuProperties.IterationMenus | misc-scripts/simple-shutdown.py:175-181 | one iteration launches `menu_items` once after an action and never otherwise, whether or not the pin went high |
| MenuProperties.IterationKeepsRunning | misc-scripts/simple-shutdown.py:136-183 | an iteration without key 29 neither powers off nor exits |
| MenuProperties.FinalFootprint | misc-scripts/simple-shutdown.py:129-183 | the last iteration reads one key, shows `menu_items` only after an action, and powers off and exits exactly on key 29, ending with `shutting_down`, the shutdown command and the exit |
| MenuProperties.MenuOpensOnLowPin | misc-scripts/simple-shutdown.py:124-130 | the trace is empty exactly when the pin is high on entry; otherwise it starts with the `menu_items` overlay, before the first key read |
| MenuProperties.OpenedStartsWithRead | misc-scripts/simple-shutdown.py:129-130 | the loop's first effect is the key read |
| MenuProperties.LoopExit | misc-scripts/simple-shutdown.py:129-177 | the loop goes round while no 29 is read and the pin stays low, and stops at the first iteration where either happens; the status tells which |
| MenuProperties.RunParts | misc-scripts/simple-shutdown.py:123-183 | an opened menu's trace is the entry overlay, the iterations that go round, then the one that ends the loop |
| MenuProperties.ReadsInOpened | misc-scripts/simple-shutdown.py:129-130 | n iterations read n keys |
| MenuProperties.ReadsPerIteration | misc-scripts/simple-shutdown.py:129-130 | a call reads exactly as many keys as it runs iterations; none when the pin is high on entry |
| MenuProperties.NoPowerOffInOpened | misc-scripts/simple-shutdown.py:136-173 | iterations that go round never power off or exit |
| MenuProperties.PowerOffInParts | misc-scripts/simple-shutdown.py:132-135 | an opened menu powers off and exits exactly when the loop ended on key 29, and then its trace ends with that key's seven effects |
| MenuProperties.ShutdownIsTerminal | misc-scripts/simple-shutdown.py:132-135 | power-off and exit happen exactly when the status is ShutDown; the trace then ends with the read, `shutting_down`, the shutdown command, the stream closes and the exit, with nothing after |
| MenuProperties.MenuItemsInOpened | misc-scripts/simple-shutdown.py:179-181 | the iterations that go round launch `menu_items` once per action key read |
| MenuProperties.MenuItemsInParts | misc-scripts/simple-shutdown.py:179-181 | an opened menu launches `menu_items` once on entry plus once per action among the iterations it ran |
| MenuProperties.MenuReshownAfterEachAction | misc-scripts/simple-shutdown.py:179-181 | `menu_items` is launched once on entry and once after every action, including one in the iteration that closes the menu |
| MenuProperties.ShowingOverlay | misc-scripts/simple-shutdown.py:329-338 | after `doPngOverlay` exactly its image is on screen, or nothing for a false argument |
| MenuProperties.ShowingOverlayThen | misc-scripts/simple-shutdown.py:134-170 | an overlay followed by a collaborator's commands leaves exactly that overlay on screen |
| MenuProperties.ShowingDispatch | misc-scripts/simple-shutdown.py:132-173 | a known key leaves its own image on screen; any other key leaves the screen as it was |
| MenuProperties.ShowingIteration | misc-scripts/simple-shutdown.py:130-181 | after an iteration without key 29, `menu_items` is on screen after an action; nothing is on screen if the pin went high; otherwise the screen is unchanged |
| MenuProperties.MenuStaysUp | misc-scripts/simple-shutdown.py:126-181 | between iterations of an open menu, `menu_items` is the only overlay on screen |
| MenuProperties.OverlayAfterCheckAdvanced | misc-scripts/simple-shutdown.py:175-181 | what each status leaves on screen: <br>• not opened: the screen as it was <br>• out of input: `menu_items` <br>• shut down: `shutting_down` <br>• closed: `menu_items` if the last key was an action, nothing otherwise <br>At most one overlay is ever left |
| MenuProperties.ShutdownKeyScenario | misc-scripts/simple-shutdown.py:123-135 | a packed record with code 29, read while the menu is open, gives exactly `menu_items`, the read, `shutting_down`, the shutdown command and the exit; later observations are never read |
| MenuProperties.VolumeUpScenario | misc-scripts/simple-shutdown.py:136-181 | a packed volume-up record read as the pin goes high gives exactly `menu_items`, the read, `vol_up`, one `amixer` call, the clear and `menu_items` again, and closes the menu |
| MenuProperties.SeparatorScenario | misc-scripts/simple-shutdown.py:172-177 | a separator record read as the pin goes high gives no command, only the clear, and closes the menu |
| Misc.Clamp | misc-scripts/simple-shutdown.py:341-342 | the result is never below `minn`; for `minn <= maxn` it lies in `[minn, maxn]`, equals `n` exactly when `n` does, is `minn` below the range and `maxn` above it; for `maxn < minn` it is `minn` |
| Misc.ClampIdempotent | misc-scripts/simple-shutdown.py:341-342 | clamping a clamped value changes nothing |
| Misc.ClampMonotone | misc-scripts/simple-shutdown.py:341-342 | clamping preserves order |

## Left out

- Hardware I/O is not modelled. The `RPi.GPIO` calls, `os.system` and the event-device read are not performed: the GPIO writes and shell commands are recorded as effects, and the pin levels and read outcomes are inputs.
- The `Timeout` class (lines 222-238) is not modelled: the SIGALRM-based interruption is asynchronous. A timeout is the read outcome `TimedOut`.
- `in_file` is left open when the read raises (line 207 is skipped). The model does not track file handles.
- `time.sleep` pacing (lines 140-183) and all `logging` and `print` output are left out. They are timing and diagnostics, and change no state.
- `analog_read_start`, `getCPUtemperature`, `createINI`, the ConfigParser/OSD start-up block and the voltage formatting (lines 91-120, 241-277, 358) are left out. They are float arithmetic, subprocess control and file I/O outside the menu.
- The main loop, its 4-second cadence and its `KeyboardInterrupt` handler (lines 345-370) are left out as process supervision. `CheckAdvanced` models a single call.
- `doVidOverlay` (lines 325-326) is never called, so it is left out.
- The "Unknown ..." branches of `doVol`, `doWifi` and `doVtx` call an undefined `logger`. `checkAdvanced` only passes 'UP'/'DOWN' and 'ON'/'OFF', so they are unreachable, and `Direction` and `Switch` have two values each.
- `sys.exit(0)` ends the process. The model records `Exit(0)`, and `CheckAdvanced` returns `ShutDown` without reading further observations.
- The layouts of `'llHHI'` other than 64-bit little-endian are not modelled. On a 32-bit platform `EVENT_SIZE` is 16 and the script decodes 16-byte records there; the model does not cover that layout, and a 16-byte read fed to it would give key 0.
- Menu.Controller.DoPngOverlay: the argument is an `Option<Image>`, not an arbitrary truthy Python value. The script passes only `False` or one of the eight image paths, all non-empty strings.
- The screen model (`MenuProperties.Showing`) treats each backgrounded `pngview ... &` launch as running before the next ``kill -9 `pidof pngview` `` executes. The race in which `pidof` misses a pngview that has not started yet is not modelled, so the on-screen facts (`ShowingOverlay`, `MenuStaysUp`, `OverlayAfterCheckAdvanced`) assume immediate launches.
- Misc.Clamp: integers only. The Python function also accepts floats and mixed types.
- Menu.Controller.CheckAdvanced: the observations are finite, so a menu still open when they run out stops with `OutOfInput`. The Python loop would go on reading.
