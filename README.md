# midi2vjoy in Dafny

midi2vjoy turns a MIDI controller into one or more vJoy virtual joysticks.
A configuration file binds MIDI keys, given as `(status, data1)`, to vJoy
targets. A target is a button, an axis, or a "repeater": two lines on one
key that pulse an "up" button when the controller's reading rises and a
"down" button when it falls. At run time every MIDI event is looked up in
that table and becomes calls into the vJoy driver.

This project models the two parts of `midi2vjoy/midi2vjoy.py` that carry
the program's logic, and proves properties of them:

- **`Config`** (`config.dfy`) models `read_conf`, the configuration
  loader. `Config.ReadConf` is the loop itself, proved equal to the
  specification function `Config.Load`. `Load` is a left fold over the
  lines: each line is classified first (skipped, malformed or a definition),
  then applied to the table and to the device-id list.
  - The table keeps the loader's loose typing as three shapes: `Plain`
    (the 2-tuple), `Half` (the 4-tuple of a repeater line) and `Pair` (the
    list `[old, new]` a second repeater line makes).
  - A line that `int()` or indexing rejects makes the whole load fail
    (`Failure(BadLine(line))`).
- **`Text`** (`text.dfy`) models the two Python built-ins the loader
  relies on. `Split` is `str.split()` with Python's whitespace set, and
  `IsBlank` is the `strip()` emptiness test. `ParseInt` is `int()` on a
  token: an optional sign, ASCII digits, and single underscores between
  digits.
- **`Dispatch`** (`dispatch.dfy`) models the body of the polling loop in
  `joystick_run`.
  - `Dispatch.Dispatch` is one event.
  - `Dispatch.Process` is a stream of events, which stops at the first
    event that raises. In the source, such an exception leaves the loop
    through the surrounding `try`.
  - The class `Dispatch.Dispatcher` holds the loop's variables:
    `previous_key`/`previous_vjoy_device`, `value_cache`, `up_vjoy` and
    `down_vjoy`. The vJoy driver is the append-only log `calls` of
    `SetBtn`/`SetAxis` calls. Its methods `HandleEvent` and `Run` are proved
    against `Dispatch` and `Process`.
- **`Scenarios`** (`scenarios.dfy`) holds whole runs: literal
  configuration text is loaded, then events are dispatched from the
  initial state.

The model keeps these behaviours of the code as written:

- The 248 clock filter only guards the printing and the release branch. A
  mapped key with status 248 is dispatched like any other.
- A mapped key whose status byte is 0 does nothing.
- A repeater key with only one line is a 4-tuple, so it is handled as a
  normal button (its `opt[1]` is the button), or as an axis when that
  button token is an axis name.
- `up_vjoy` and `down_vjoy` keep their values from one repeater event to
  the next, even across different keys.
- A button is sent the raw reading as its value.
- Only a `#` in the first column marks a comment.
- `read_conf` accepts any line of four or more tokens other than six as a
  plain binding, and ignores the tokens after the fourth (lines 71-82).
- An event can raise and end the loop (lines 231-233). It does so on:
  - a button token `int()` rejects;
  - a repeater target that is still unset or whose button `int()` rejects;
  - a repeater list whose first element is not a 4-tuple. That happens when
    a plain line is followed by a repeater line on the same key, or when a
    third repeater line nests the list.

## Model

| member | source | states |
|---|---|---|
| Config.ReadConf | midi2vjoy/midi2vjoy.py:62-86 | the loop returns `Load(lines)`; it fails exactly when some line is malformed; on success `vids` has no repetitions |
| Config.LoadOutcome | midi2vjoy/midi2vjoy.py:62-86 | the load fails exactly when some line is malformed, and a successful load has duplicate-free `vids` |
| Config.LoadFailsIff | midi2vjoy/midi2vjoy.py:68-83 | the load fails iff some line is malformed, and the error names the first malformed line |
| Config.ReplayFailsIff | midi2vjoy/midi2vjoy.py:68-83 | the same over classified lines: failure iff some line is bad, reported at the first bad one |
| Config.LoadFailurePersists | midi2vjoy/midi2vjoy.py:68-72 | once a prefix of the file fails, later lines cannot change the outcome |
| Config.ReplayFailurePersists | midi2vjoy/midi2vjoy.py:68-72 | the same over classified lines |
| Config.LoadSnoc | midi2vjoy/midi2vjoy.py:68-85 | reading one more line is one step of the loop applied to the result so far |
| Config.KindsAppend | midi2vjoy/midi2vjoy.py:68 | lines are classified independently of one another |
| Config.SkippedLineNoEffect | midi2vjoy/midi2vjoy.py:69-70 | a blank line or a line starting with `#` leaves table and device ids unchanged |
| Config.LoadIgnoresSkipped | midi2vjoy/midi2vjoy.py:69-70 | deleting every blank and comment line from the file does not change the result |
| Config.KindsRemoveSkipped | midi2vjoy/midi2vjoy.py:69-70 | classifying the file without its skipped lines is classifying it and dropping the skips |
| Config.ReplayDropSkips | midi2vjoy/midi2vjoy.py:69-70 | skipped lines contribute nothing to the fold |
| Config.ParsedLineNotSkipped | midi2vjoy/midi2vjoy.py:69-72 | a line that converts is never one the skip test drops |
| Config.PlainLineOverwrites | midi2vjoy/midi2vjoy.py:80-82 | a non-6-token line sets its key to `(dev, fs[3])` whatever was there; every other key is unchanged |
| Config.RepeaterLineCombines | midi2vjoy/midi2vjoy.py:73-79 | a 6-token line stores its 4-tuple for a new key, or makes `[old, new]` for an existing one; every other key is unchanged |
| Config.UnmentionedKeyUnchanged | midi2vjoy/midi2vjoy.py:71-82 | lines that do not mention a key leave its entry, or its absence, as it was |
| Config.ReplayKeepsKey | midi2vjoy/midi2vjoy.py:71-82 | the same over classified lines |
| Config.LastPlainDefinitionWins | midi2vjoy/midi2vjoy.py:80-82 | the last plain line for a key decides its entry |
| Config.RepeaterPairCombines | midi2vjoy/midi2vjoy.py:73-79 | two 6-token lines for a key, and no other line for it, give the list `[first, second]` in file order |
| Config.LoadVids | midi2vjoy/midi2vjoy.py:83-85 | `vids` holds each device id of an accepted line exactly once, ordered by first appearance |
| Config.ReplayVids | midi2vjoy/midi2vjoy.py:83-85 | the same over classified lines |
| Config.FirstIndexAppend | midi2vjoy/midi2vjoy.py:84-85 | appending to the id list does not move the first occurrence of an id already in it |
| Config.FirstIndex | midi2vjoy/midi2vjoy.py:84 | the result is the position of the first occurrence |
| Config.ClassifyWords | midi2vjoy/midi2vjoy.py:71-82 | a line with at least four tokens whose first three are integers is accepted: six tokens give the 4-tuple, any other count the 2-tuple of the fourth token |
| Config.MalformedIff | midi2vjoy/midi2vjoy.py:69-82 | a line makes the load fail exactly when it is not skipped and has fewer than four tokens or a first, second or third token `int()` rejects |
| Config.ClassifyPlainText | midi2vjoy/midi2vjoy.py:71-82 | a rendered `status data1 dev field` line loads back as the binding it was rendered from |
| Config.ClassifyRepeaterText | midi2vjoy/midi2vjoy.py:71-79 | a rendered six-token repeater line loads back as its 4-tuple |
| Config.ShowIntIsWord | midi2vjoy/midi2vjoy.py:71-72 | a rendered integer is a single token |
| Text.BlankIffNoWords | midi2vjoy/midi2vjoy.py:69-71 | the `strip()` blank test holds exactly when `split()` yields no tokens |
| Text.Split | midi2vjoy/midi2vjoy.py:71 | every token `split()` returns is non-empty and has no whitespace |
| Text.WordLength | midi2vjoy/midi2vjoy.py:71 | the length of the leading run of non-whitespace characters |
| Text.WordLengthOfWord | midi2vjoy/midi2vjoy.py:71 | a token followed by whitespace or the end is read whole |
| Text.SplitJoin | midi2vjoy/midi2vjoy.py:71 | splitting tokens joined by single spaces gives the tokens back |
| Text.ParseShowInt | midi2vjoy/midi2vjoy.py:72 | `int(str(n)) == n` for every integer |
| Text.ShowNatDigits | midi2vjoy/midi2vjoy.py:72 | the decimal form of `n` is a non-empty digit string whose value is `n` |
| Text.ParsedIsWord | midi2vjoy/midi2vjoy.py:72 | every token `int()` accepts is a single whitespace-free token |
| Text.DigitChar | midi2vjoy/midi2vjoy.py:72 | the digit character for `d` has value `d` |
| Dispatch.AxisCodes | midi2vjoy/midi2vjoy.py:30-31 | every axis code lies in 0x30..0x39, and distinct tokens have distinct codes |
| Dispatch.AxisValue | midi2vjoy/midi2vjoy.py:226 | a MIDI reading 0..127 scales to 256..32768 |
| Dispatch.AxisValueFaithful | midi2vjoy/midi2vjoy.py:226 | the scaling is strictly monotone and the reading can be recovered from the value |
| Dispatch.UnmappedEvent | midi2vjoy/midi2vjoy.py:158-166 | an unmapped key changes no state; it releases the last pressed button exactly when the status is not 248, the reading is 0 and a press is recorded |
| Dispatch.UnmappedClockIgnored | midi2vjoy/midi2vjoy.py:155-166 | an unmapped clock message (status 248) does nothing |
| Dispatch.StatusZeroIgnored | midi2vjoy/midi2vjoy.py:167-170 | a mapped key with status byte 0 does nothing |
| Dispatch.AxisEvent | midi2vjoy/midi2vjoy.py:224-227 | an axis binding sends exactly one `SetAxis((reading + 1) << 8, dev, code)` with a code in 0x30..0x39, and changes no state |
| Dispatch.ButtonEvent | midi2vjoy/midi2vjoy.py:218-223 | a button binding (including a lone repeater half) sends `SetBtn(reading, dev, int(btn))` and records the press; it raises, with no call, exactly when `int()` rejects the button |
| Dispatch.ScanPair | midi2vjoy/midi2vjoy.py:179-186 | the repeater scan raises iff the first element is not a 4-tuple; otherwise the last "up" and the last "down" element win, and a direction neither names keeps its old target |
| Dispatch.RepeaterFirstEvent | midi2vjoy/midi2vjoy.py:189-217 | the first event on a repeater key sets the up and down targets from the list, sends nothing and records the reading; the last press is left alone |
| Dispatch.RepeaterLaterEvent | midi2vjoy/midi2vjoy.py:180-217 | a later event pulses "up" (press, release) when the reading rose and "down" when it fell, sends nothing when it is equal, raises exactly when the chosen target is missing or its button is not an integer, and records the reading unless it raised |
| Dispatch.HaltIsSilent | midi2vjoy/midi2vjoy.py:161-223 | an event that raises has made no driver call, recorded no reading and no press |
| Dispatch.CacheOnlyGrows | midi2vjoy/midi2vjoy.py:189-217 | the value cache only grows, and only the event's own repeater key changes |
| Dispatch.DispatchKeepsInv | midi2vjoy/midi2vjoy.py:161-223 | a recorded press always names a button `int()` accepts, so the release branch never raises |
| Dispatch.ProcessKeepsInv | midi2vjoy/midi2vjoy.py:148-228 | that invariant holds after any sequence of events |
| Dispatch.ProcessStopsAtHalt | midi2vjoy/midi2vjoy.py:148-233 | once an event raises, no later event is processed |
| Dispatch.ProcessAppend | midi2vjoy/midi2vjoy.py:148-228 | processing two stretches of events one after the other is processing their concatenation |
| Dispatch.Dispatcher.constructor | midi2vjoy/midi2vjoy.py:142-147 | no press, an empty cache, no repeater targets, and no driver calls yet |
| Dispatch.Dispatcher.HandleEvent | midi2vjoy/midi2vjoy.py:149-228 | the new variables and the appended driver calls are exactly those `Dispatch` gives; the press invariant is kept |
| Dispatch.Dispatcher.Repeater | midi2vjoy/midi2vjoy.py:176-217 | the repeater branch ends in the variables, calls and outcome `Repeat` gives: targets scanned from the list, a pulse when the reading moved, the reading recorded unless it raised |
| Dispatch.Dispatcher.Press | midi2vjoy/midi2vjoy.py:193-208 | a pulse appends press-then-release of the target's button; it raises, with no call, exactly when the target is missing or its button is not an integer |
| Dispatch.Dispatcher.Run | midi2vjoy/midi2vjoy.py:148-233 | the loop over events ends in the state and call log `Process` gives, stopping at the first event that raises |
| Scenarios.AxisLoad | midi2vjoy/midi2vjoy.py:62-86 | the line `176 7 1 X` loads as `{(176, 7): (1, "X")}` with `vids == [1]` |
| Scenarios.AxisDispatch | midi2vjoy/midi2vjoy.py:224-227 | the event (176, 7, 64) on that table sends `SetAxis(16640, 1, 0x30)` |
| Scenarios.RepeaterLoad | midi2vjoy/midi2vjoy.py:73-79 | `176 10 1 5 rep up` and `176 10 1 6 rep down` load as one repeater list on (176, 10) |
| Scenarios.RepeaterDispatch | midi2vjoy/midi2vjoy.py:180-217 | readings 50 then 70 on that key pulse button 5 of device 1: `SetBtn(1, 1, 5)`, then `SetBtn(0, 1, 5)` |
| Scenarios.ReleaseDispatch | midi2vjoy/midi2vjoy.py:158-223 | a press with velocity 100 sends 100; the unmapped note-off with reading 0 releases the same button |
| Scenarios.IndentedCommentFails | midi2vjoy/midi2vjoy.py:69-72 | a comment line indented by a space is not skipped, and makes the load fail |
| Scenarios.LoadOne | midi2vjoy/midi2vjoy.py:62-86 | a one-line file gives that line's entry and its device id |
| Scenarios.LoadTwo | midi2vjoy/midi2vjoy.py:62-86 | a two-line file applies both lines in order |
| Scenarios.LoadRepeaterPair | midi2vjoy/midi2vjoy.py:73-79 | two repeater lines on one key give the list `[first, second]` |
| Scenarios.ProcessOne | midi2vjoy/midi2vjoy.py:148-228 | a single event that does not raise is one dispatch |
| Scenarios.ProcessTwo | midi2vjoy/midi2vjoy.py:148-228 | two events that do not raise are two dispatches in order |

## Left out

- `midi_test` (lines 36-60) only lists devices and prints events. It has no logic beyond printing.
- Opening the MIDI device, and `pygame.midi` polling and reading, are left out. Events are given as a sequence of `(status, data1, data2)`.
- The registry lookup with `winreg` and the loading of `vJoyInterface.dll` with `ctypes` are left out. The driver is an append-only log of calls.
- Acquiring, resetting and relinquishing each device in `vids` is left out. These are foreign calls; the model only proves the order and uniqueness of `vids`.
- `time.sleep` and every `print` are left out. In particular, the pulse's 1 ms sleep between press and release is not modelled.
- Command-line parsing and `main` are left out. So is the program-level handling of a load failure, which prints a message and returns.
- Reading the file into lines is left out: the loader takes the lines of the file as a sequence of strings. An unreadable file is not modelled.
- `Text.ParseInt` accepts ASCII digits only. Python's `int()` also accepts other Unicode decimal digits; those are left out.
- `Dispatch.Dispatcher.HandleEvent` does not model errors the driver call itself could raise. This includes `ctypes` refusing an integer out of the C `int` range.
- The catch-all `except` around the event loop is a single halted outcome. Which exception was raised is not kept.
