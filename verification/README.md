# hellmacro input dispatch, modelled in Dafny

`hellmacro.py` is a desktop macro tool for Helldivers 2. It watches the keyboard and the
mouse. A key or side button bound to a stratagem slot makes it play that stratagem's
direction sequence: Ctrl held, each arrow tapped, Ctrl released. Two weapon helpers can be
switched on from the keyboard:

- **Railgun/Epoch safety** lets go of the held left button just before the weapon would
  overcharge. With the keyboard fallback it taps '1' instead.
- **Arc Thrower rapidfire** keeps releasing and re-pressing the left button while it is held.

This project models the core of `MacroApp` with the user interface, the input library,
threads, timers and files stripped away. It proves what the handlers promise.

## What is modelled

- The keybind table holds five stratagem slots, five support slots and the two toggle
  binds, all sharing one namespace of tokens (`Keybinds`). The conflict check is an ordered
  scan that reports the first other owner of a token. It is written both as a function and
  as a method mirroring the source's loops, and the two are proved equal.
- Capturing a binding (`Keybinds.Capture`) works as follows:
  - a reserved key (Esc, Enter, Tab) from the keyboard is refused;
  - a conflicting token ends the capture with nothing changed;
  - any other token is installed in the target slot.
  No sequence of captures and clears ever makes two slots share a token.
- The source encodes the slot being captured as a Python int or string. The `SlotRef`
  datatype models it, and the encoding is proved lossless.
- Key and button events are normalised into tokens (`Tokens`). This covers the
  `str.replace` / `str.lower` pipeline.
- The run-time state machine is `RunStates`:
  - Start/Stop;
  - the two debounced, mutually exclusive weapon modes;
  - the left button arming and cancelling the railgun timer;
  - the timer callback;
  - one step of the arc thrower loop;
  - a playback running to its end.
  Every transition keeps the invariant `RunStates.Inv`. In particular, the two modes are
  never on together.
- A press while running and not capturing (`Dispatch`) toggles a weapon mode, then launches
  the first slot bound to the token that has something to play, unless a playback is in
  flight.
- Playback of a direction sequence is `Playback.RunMacroSequence`. It is a loop proved
  against the trace function `Playback.PlaybackTrace`.
- Range checks keep the two tunables in range (`Tunables`).
- The profile map supports create, save, rename, delete and load (`Profiles`). Saving then
  loading is a round trip.
- The application object is `App.MacroApp`. It is a class whose methods update its
  attributes in place and are proved against the functions above:
  - the keybind lists, the two toggle binds, the slot being captured, the combo selections,
    the tunables and the profile map are separate fields;
  - the run-time attributes that the handlers and worker threads update are held together
    in one `RunState` record field, `run`, which the methods update step by step.

Time is an explicit `now: real` parameter. Calls to the keyboard and mouse controllers become
`Press` and `Release` events appended to `output`. Threads and the timer become state:
- `arcLoop` records where the arc thread is;
- `playback` holds the sequence of the playback in flight;
- `railgunTimer` holds the deadline of the timer and whether it is still live.

## Model

| member | source | states |
|---|---|---|
| Tokens.Replace | hellmacro.py:1137 | `str.replace(pat, "")` never lengthens the text |
| Tokens.ReplaceRemovesChar | hellmacro.py:1137 | after removing a one-character pattern, that character no longer occurs |
| Tokens.ReplaceWithoutMatch | hellmacro.py:1137 | text that lacks the pattern's first character is left unchanged |
| Tokens.Lower | hellmacro.py:1137 | same length, each character lower-cased, no upper-case letter left |
| Tokens.NormalizeKey | hellmacro.py:1137 | a key token contains no quote and no upper-case letter, and is no longer than `str(key)` |
| Tokens.SpecialKeyToken | hellmacro.py:1137 | a special key `Key.<name>` with a lower-case, quote-free name gives its name as token |
| Tokens.CharKeyToken | hellmacro.py:1137 | a character key `'c'` (any character but a quote) gives the token `c` lower-cased |
| Tokens.IsReservedKey | hellmacro.py:1140 | each reserved token is what the special key of the same name normalises to, so Esc, Enter and Tab presses are refused |
| Tokens.NormalizeKeyIdempotent | hellmacro.py:1137 | normalising a token again gives the same token |
| Tokens.ButtonToken | hellmacro.py:1234 | a button token contains no upper-case letter |
| Tokens.SideButtonTokens | hellmacro.py:1233-1234 | the side buttons give "x1" and "x2", which are never reserved keys (hellmacro.py:1140) |
| Catalog.LaunchSequence | hellmacro.py:1189 | a stratagem plays only if its entry is an object with a non-empty "sequence", and then it plays that sequence |
| Catalog.TestSequence | hellmacro.py:1325-1331 | Test plays any entry with a "sequence", empty or not, and plays exactly that sequence; where a trigger would play, Test plays the same |
| Keybinds.SlotAt | hellmacro.py:879-890 | the scan order always yields a valid slot |
| Keybinds.Rank | hellmacro.py:879-890 | each slot has one position in the scan order, and `SlotAt` inverts it |
| Keybinds.Assign | hellmacro.py:1163-1179 | the target slot holds the token and every other slot keeps its binding |
| Keybinds.FirstOwner | hellmacro.py:879-890 | the reported owner holds the token, is not the slot being captured, and no earlier slot qualifies; None exactly when no other slot holds it |
| Keybinds.FirstOwnerAt | hellmacro.py:879-890 | the first slot in scan order that owns the token is the one reported |
| Keybinds.Encode | hellmacro.py:839-865 | the list slots are stored as ints and the toggles as strings; an int is below 5 exactly for a stratagem slot and below 10 for every slot |
| Keybinds.Decode | hellmacro.py:1163-1179 | on every value the setters store, the `isinstance` chain's branch names a valid slot whose stored value it is; values no setter stores decode to None |
| Keybinds.DecodeEncode | hellmacro.py:839-867 | the int/string encoding of the slot being captured is decoded back to the same slot and is injective |
| Keybinds.CheckKeybindConflict | hellmacro.py:879-890 | the source's four scans, with Python's int/string comparisons, return exactly `FirstOwner` |
| Keybinds.OwnerName | hellmacro.py:882-889 | the warning names a stratagem slot, and only a stratagem slot, as "Stratagem " followed by its 1-based digit |
| Keybinds.OwnerNamesDistinct | hellmacro.py:882-889 | the conflict warnings of two different owners name different slots |
| Keybinds.Capture | hellmacro.py:1139-1180 | outcomes are exhaustive: reserved key iff keyboard and esc/enter/tab; conflict iff some other slot owns the token, and it is reported against `FirstOwner`; installed iff neither. Only the installed outcome changes the table, and only the target slot |
| Keybinds.AssignFreshPreservesUnique | hellmacro.py:1163-1179 | binding a token that no other slot holds keeps tokens unique |
| Keybinds.ClearPreservesUnique | hellmacro.py:869-877 | clearing a slot keeps tokens unique |
| Keybinds.CapturePreservesUnique | hellmacro.py:1144-1180 | every capture outcome keeps tokens unique |
| Keybinds.RebindOwnTokenIsNoConflict | hellmacro.py:880-890 | re-capturing a slot with the token it already holds is not a conflict |
| Keybinds.EditsPreserveUnique | hellmacro.py:849-877 | any sequence of captures and clears keeps tokens unique |
| Playback.DirectionKey | hellmacro.py:1101-1107 | exactly "up", "down", "left", "right" map to an arrow key |
| Playback.Arrows | hellmacro.py:1097-1113 | the recognised keys of a list are arrows and no more numerous than its names |
| Playback.ArrowsAppend | hellmacro.py:1097-1113 | the keys of two lists played one after the other are the keys of the first, then those of the second |
| Playback.ArrowsOfName | hellmacro.py:1101-1107 | one name gives its arrow key when it is a direction, and nothing when it is not |
| Playback.Taps | hellmacro.py:1097-1113 | the loop body emits two events for each recognised key |
| Playback.TapsArePairs | hellmacro.py:1107-1113 | the taps are one press then one release of each recognised key, in order |
| Playback.TapsAvoidCtrl | hellmacro.py:1094-1118 | no tap touches Ctrl |
| Playback.StepsFrom | hellmacro.py:1097-1100 | from step k, the loop runs up to the first step at which the running flag reads false, or to the end |
| Playback.StepsRun | hellmacro.py:1097-1100 | the steps run are all those before the first false reading outside test mode, and all of them in test mode |
| Playback.PlaybackTrace | hellmacro.py:1088-1119 | nothing is emitted when not a test and not running on entry; otherwise the trace starts by pressing Ctrl and ends by releasing it |
| Playback.RunMacroSequence | hellmacro.py:1088-1119 | the loop emits exactly `PlaybackTrace`: nothing when stopped on entry, otherwise Ctrl around the taps of the steps run |
| Playback.PlaybackShape | hellmacro.py:1088-1119 | a trace is empty iff not test mode and not running; otherwise it starts with Press(Ctrl), ends with Release(Ctrl), has no Ctrl in between, and holds two events per recognised key |
| Playback.TestPlaysEverything | hellmacro.py:1089-1098 | in test mode every step plays whatever the running flag |
| Playback.InterruptedPlayback | hellmacro.py:1097-1100 | a stop observed before step k cuts the trace after the first k names, with Ctrl still released |
| Playback.UpDownExample | hellmacro.py:1088-1119 | ["up", "down"] plays Ctrl, up, down, Ctrl as press/release pairs |
| Tunables.CheckArcThrowerDelay | hellmacro.py:812-824 | accepted iff a number d with 0.15 < d <= 10; not a number is its own refusal |
| Tunables.CheckRailgunTimeout | hellmacro.py:826-837 | accepted iff a number t with 0 < t <= 10; not a number is its own refusal |
| Tunables.Updated | hellmacro.py:812-837 | an accepted entry becomes the value, and a refused one leaves the previous value in place |
| Tunables.ArcThrowerDelayStaysInRange | hellmacro.py:812-824 | an update keeps an in-range delay in range, and a refused one keeps the previous value |
| Tunables.RailgunTimeoutStaysInRange | hellmacro.py:826-837 | an update keeps an in-range timeout in range, and a refused one keeps the previous value |
| Tunables.ShortDelayRefused | hellmacro.py:815 | 0.1 and 0.15 are refused as out of range |
| Profiles.Export | hellmacro.py:907-917 | a saved profile records every key |
| Profiles.Resolve | hellmacro.py:972-997 | each stored key is read as stored and each missing key as the default of `__init__`, key by key, so a partly filled profile keeps what it has |
| Profiles.ResolveExport | hellmacro.py:907-1000 | reading back an exported profile gives the exported settings |
| Profiles.SelectIfListed | hellmacro.py:979-980 | a combo box moves to a name only if it lists it, and otherwise keeps its text |
| Profiles.ApplyLoad | hellmacro.py:971-997 | every loaded value is taken except the combo texts, each of which moves only to a listed name; combos keep showing listed names |
| Profiles.SaveLoadRoundTrip | hellmacro.py:907-1000 | loading an exported record over any settings restores the exported settings |
| Profiles.SkipSpaces | hellmacro.py:896 | skips exactly the leading whitespace |
| Profiles.SkipSpacesBack | hellmacro.py:896 | drops exactly the trailing whitespace |
| Profiles.Strip | hellmacro.py:896 | empty iff the text is all whitespace; otherwise it neither starts nor ends with whitespace |
| Profiles.LoadProfile | hellmacro.py:965-1003 | succeeds iff the name is non-empty, present and its lists are five long; an empty or unknown name is NotFound; the result is `ApplyLoad` |
| Profiles.SavedProfileLoadsBack | hellmacro.py:932-1003 | saving the current settings under a name and loading that name gives them back |
| Profiles.CreateProfile | hellmacro.py:895-930 | succeeds iff the stripped name is non-empty and new, adding exactly it with the snapshot; the error says which check failed |
| Profiles.SaveProfile | hellmacro.py:932-963 | succeeds iff a name is selected and the overwrite is confirmed; only that name changes |
| Profiles.RenameProfile | hellmacro.py:1005-1029 | succeeds iff both names are given, the new one is free and the old one exists; the profile moves and nothing else changes |
| Profiles.DeleteProfile | hellmacro.py:1031-1059 | succeeds iff the name exists, is not Default and the deletion is confirmed; exactly that name is removed |
| Profiles.RenameBack | hellmacro.py:1005-1029 | renaming a profile and renaming it back restores the map |
| RunStates.InitialInv | hellmacro.py:60-78 | the initial state keeps the invariant, with no live timer and no arc thread |
| RunStates.Cancel | hellmacro.py:1320-1321 | a cancelled timer is no longer live and keeps its deadline |
| RunStates.ToggleRailgun | hellmacro.py:774-806 | within 0.2 s of the last accepted railgun toggle nothing changes. Otherwise the flag flips and the railgun timestamp is set. Switching on turns the arc mode off with a left release; switching off clears the timer. The arc timestamp is never touched, and the invariant holds |
| RunStates.ToggleArcThrower | hellmacro.py:734-772 | within 0.2 s nothing changes. Otherwise the flag flips and the arc timestamp is set. Switching on turns railgun safety off and clears its timer, and starts the arc thread if running and not alive. Switching off emits a left release |
| RunStates.StopAllThreads | hellmacro.py:1316-1323 | a live arc thread is told to stop, the timer is cancelled, and nothing else changes |
| RunStates.ToggleMacro | hellmacro.py:1061-1086 | the running flag flips. Stopping clears both modes and leaves no live timer; starting with rapidfire on starts the arc thread if it is not alive. No events are emitted |
| RunStates.LeftButton | hellmacro.py:1219-1232 | the held flag and press time are set. A press under railgun safety while running arms a timer due at now + timeout − 0.05; a release clears the timer; nothing else changes |
| RunStates.ReleaseEvents | hellmacro.py:699-707 | the release ends with the left button or the '1' key released |
| RunStates.MouseRelease | hellmacro.py:691-711 | nothing happens unless the button is held under railgun safety while running and 0.2 s have passed since the last release; then the release events are emitted, the held flag is cleared and the time is recorded |
| RunStates.TimerFires | hellmacro.py:691-711 | a fired timer keeps its deadline and is no longer live; outside the debounce window its callback releases and records the release time, inside it nothing else changes, and no other field is touched |
| RunStates.ArcLoopHead | hellmacro.py:715-719 | the arc thread ends iff not running or rapidfire is off, and holds iff it continues with the button held |
| RunStates.ArcLoopWake | hellmacro.py:720-727 | after the hold it releases and re-presses the left button iff rapidfire is on and the button is held, and returns to the loop head |
| RunStates.FinishPlayback | hellmacro.py:1088-1119 | the playback's trace is appended and no playback is in flight any more |
| RunStates.TestPlayback | hellmacro.py:1325-1340 | a test appends Ctrl around every tap of the sequence and changes nothing else |
| RunStates.ToggleRailgunDebounced | hellmacro.py:775-779 | two railgun toggles within 0.2 s act as one |
| RunStates.ModesExclusive | hellmacro.py:741-793 | after either toggle the two modes are not both on |
| RunStates.ReleaseAtMostOnce | hellmacro.py:693-698 | after the timer has released, a second callback does nothing |
| RunStates.RunCons | hellmacro.py:1181-1213 | a run that starts with an enabled action is that step followed by the rest of the run |
| RunStates.StartPlayback | hellmacro.py:1190-1213 | a launch puts the sequence in flight and changes nothing else |
| RunStates.Step | hellmacro.py:691-1213 | each action keeps the invariant: the two toggles, Start/Stop, the left button, the timer firing, the two arc loop steps, a key-press launch, a playback ending and a test |
| RunStates.RunKeepsInv | hellmacro.py:691-1213 | every sequence of enabled actions keeps the invariant, so the two modes are never on together |
| RunStates.RunExtendsOutput | hellmacro.py:691-1213 | synthesised events are only ever appended |
| Dispatch.SlotSequence | hellmacro.py:1186-1211 | a stratagem slot plays its catalog entry's sequence when non-empty; a support slot plays its built-in sequence |
| Dispatch.FirstTriggered | hellmacro.py:1186-1211 | the first slot, stratagem slots before support slots, bound to the token with something to play |
| Dispatch.Launch | hellmacro.py:1186-1211 | None iff no slot triggers; otherwise the sequence of the first triggering slot, never empty |
| Dispatch.SelectPlayback | hellmacro.py:1186-1213 | the two launch loops with their skip-if-busy `continue` launch nothing when a playback is in flight and otherwise exactly `Launch` |
| Dispatch.Toggled | hellmacro.py:1182-1185 | the railgun bind toggles railgun; otherwise the arc bind toggles arc; otherwise nothing |
| Dispatch.LaunchAfter | hellmacro.py:1190-1213 | after the toggle, the press starts its playback only when none is in flight, and otherwise changes nothing |
| Dispatch.DispatchPress | hellmacro.py:1181-1213 | nothing happens when stopped. While running the toggle happens, and a launch happens only when no playback is in flight |
| Dispatch.PressActions | hellmacro.py:1181-1213 | a press amounts to at most two state-machine actions, and none while stopped |
| Dispatch.LaunchAfterIsRun | hellmacro.py:1190-1213 | the launch half of a press is a run of at most one launch action |
| Dispatch.DispatchPressIsRun | hellmacro.py:1181-1213 | a press is exactly a run of the state machine's actions (its toggle, then its launch), so the run lemmas cover key-press launches |
| Dispatch.LaunchIsTheBoundSlot | hellmacro.py:1186-1211 | with unique bindings, a press launches the slot bound to it |
| Dispatch.ToggleKeyLaunchesNothing | hellmacro.py:1181-1211 | with unique bindings, a toggle bind never launches a playback |
| Dispatch.HandleToken | hellmacro.py:1139-1213 | while capturing, the run-time state is untouched and the table changes as `Capture` says, with the capture ending unless a reserved key was refused; otherwise the press is dispatched and the table is untouched |
| Dispatch.OnPress | hellmacro.py:1135-1215 | a key press is its normalised token handled; capture never touches the run-time state; when stopped and not capturing nothing changes |
| Dispatch.OnClick | hellmacro.py:1217-1308 | the left button only drives the timer; a side-button press is handled like a key without the reserved-key check; right and middle buttons change nothing |
| Dispatch.SideButtonEndsCapture | hellmacro.py:1236-1273 | a side-button press always ends a capture |
| Dispatch.ReservedKeyKeepsCapture | hellmacro.py:1140-1143 | Esc, Enter and Tab during capture change nothing and keep the capture pending |
| Dispatch.HandleTokenPreservesUnique | hellmacro.py:1144-1180 | handling any token keeps the bindings unique |
| App.MacroApp.constructor | hellmacro.py:53-228 | all attributes take their defaults, then the last profile is loaded over them; the class invariant holds |
| App.MacroApp.LoadProfile | hellmacro.py:965-1003 | the settings become `Profiles.LoadProfile`'s result, or stay as they were when it refuses |
| App.MacroApp.SelectStratagems | hellmacro.py:979-981 | each combo box moves to its loaded name only if it lists it |
| App.MacroApp.SetKeybind | hellmacro.py:839-867 | the slot becomes the one being captured |
| App.MacroApp.DeleteKeybind | hellmacro.py:849-877 | the slot is cleared and every other binding is kept |
| App.MacroApp.SelectStratagem | hellmacro.py:344-360 | a combo box moves only to a name it lists |
| App.MacroApp.ToggleRailgunSafety | hellmacro.py:774-806 | the run-time state becomes `ToggleRailgun` of the old one |
| App.MacroApp.ToggleArcThrowerRapidfire | hellmacro.py:734-772 | the run-time state becomes `ToggleArcThrower` of the old one |
| App.MacroApp.StopAllThreads | hellmacro.py:1316-1323 | the run-time state becomes `StopAllThreads` of the old one and the invariant is re-established |
| App.MacroApp.ToggleMacro | hellmacro.py:1061-1086 | the run-time state becomes `ToggleMacro` of the old one |
| App.MacroApp.CaptureToken | hellmacro.py:1139-1180 | the table becomes `Capture`'s, and the capture ends unless a keyboard press of a reserved key was refused |
| App.MacroApp.Install | hellmacro.py:1163-1179 | the `isinstance` chain stores the token in the target slot only |
| App.MacroApp.DispatchToken | hellmacro.py:1181-1213 | the run-time state becomes `DispatchPress` of the old one |
| App.MacroApp.ToggleFor | hellmacro.py:1182-1185 | the run-time state becomes `Toggled` of the old one |
| App.MacroApp.HandleToken | hellmacro.py:1139-1213 | table, capture target and run-time state become `Dispatch.HandleToken`'s |
| App.MacroApp.OnKeyPress | hellmacro.py:1135-1215 | table, capture target and run-time state become `Dispatch.OnPress`'s |
| App.MacroApp.OnClick | hellmacro.py:1217-1308 | table, capture target and run-time state become `Dispatch.OnClick`'s |
| App.MacroApp.PerformMouseRelease | hellmacro.py:691-711 | the run-time state becomes `TimerFires` of the old one |
| App.MacroApp.ArcThrowerLoopHead | hellmacro.py:715-719 | the run-time state becomes `ArcLoopHead` of the old one |
| App.MacroApp.ArcThrowerLoopWake | hellmacro.py:720-727 | the run-time state becomes `ArcLoopWake` of the old one |
| App.MacroApp.RunLaunchedPlayback | hellmacro.py:1088-1119 | the run-time state becomes `FinishPlayback` of the old one |
| App.MacroApp.TestStratagem | hellmacro.py:1325-1331 | the selected entry's sequence, empty or not, is played in full; nothing is played without one |
| App.MacroApp.TestSupportStratagem | hellmacro.py:1333-1340 | the support slot's built-in sequence is played in full |
| App.MacroApp.UpdateArcThrowerDelay | hellmacro.py:812-824 | the delay takes the entry iff it passes the range check |
| App.MacroApp.UpdateRailgunTimeout | hellmacro.py:826-837 | the timeout takes the entry iff it passes the range check |
| App.MacroApp.UpdateRailgunFallback | hellmacro.py:808-810 | the fallback flag follows the checkbox |
| App.MacroApp.CreateProfile | hellmacro.py:895-930 | the profile map becomes `Profiles.CreateProfile`'s result with the current settings, or stays on a refusal |
| App.MacroApp.SaveProfile | hellmacro.py:932-963 | the profile map becomes `Profiles.SaveProfile`'s result, or stays on a refusal |
| App.MacroApp.RenameProfile | hellmacro.py:1005-1029 | the profile map becomes `Profiles.RenameProfile`'s result, or stays on a refusal |
| App.MacroApp.ConfirmDeleteProfile | hellmacro.py:1031-1059 | the profile map becomes `Profiles.DeleteProfile`'s result; after a deletion the Default profile is loaded |

## Left out

- Qt widgets, styling, labels, message boxes, log messages and the blink indicator are user
  interface. The warnings are reduced to the error values the operations return.
- Reading and writing `stratagems.json`, `profiles.json` and `last_profile.json` is file I/O.
  The catalog and the profile map are handed in, and the last profile's name is a
  constructor parameter. `reload_stratagems` is file I/O followed by the combo refresh.
- pynput's listeners and controllers are foreign calls. Their effect is the `Press`/`Release`
  events in `output`, and events synthesised by the program are not fed back to its own
  listeners.
- Threads, `threading.Timer`, `join(timeout=1)` and `time.sleep` durations are concurrency
  and wall-clock timing. A playback runs atomically to its end. The values of the running
  flag that it reads along the way are a parameter.
- The arc thread is a program counter, `ArcLoop`. Its two steps are separate events that may
  interleave with every handler.
- The timer is a deadline plus a `live` flag. `PerformMouseRelease` is its firing and needs a
  live timer; a firing that raced with a cancel is not modelled.
- Python's `float()` on the entry text is a library call, and the parsed value arrives as an
  `Option<real>`. Floating point is modelled as exact reals, so NaN and infinity do not arise.
  A NaN entry passes the source's range tests.
- `str.lower()` and `str.strip()` are modelled on ASCII letters and ASCII whitespace. Unicode
  case mapping and Unicode whitespace are not modelled.
- JSON values of unexpected types in a profile are not modelled: each key either is missing
  or has the expected type.
- App.MacroApp.LoadProfile: a profile whose keybind, stratagem or support lists are not five
  long is refused whole. The source installs the keybind list, then raises `IndexError` when
  a list is shorter, which leaves a partial load. It accepts longer lists, which later break
  the support dispatch. The model keeps the table at five slots throughout.
- Profiles.LoadProfile: the same refusal of lists that are not five long, for the same
  reason.
- The profile combo box reloads the profile it shows whenever its text changes. The
  `clear`/`addItems`/`setCurrentText` calls in create, rename and delete therefore trigger
  further loads. Only the explicit load of Default after a deletion is modelled.
- Dictionary ordering: the profile combo lists profiles in insertion order. The model's
  profile map is unordered.
- The list aliasing of `load_profile` is not modelled: lists are taken as values. No range
  or uniqueness validation is applied to a loaded profile, as in the source.
- RunStates.TimerFires: the railgun timer fires at `railgunTimeout − 0.05`. With a timeout
  below 0.05 that interval is negative, and `threading.Timer` fires at once. The model keeps
  the deadline as computed.
- Keybinds.Decode: values that no setter stores are decoded to `None`, which is a choice of
  domain. In the source, `active_keybind == -1` takes the first branch and writes slot 4 by
  negative indexing, and 10 or more raises `IndexError`. The setters at hellmacro.py:839-865
  only store 0..9, "railgun" and "arc_thrower", so neither case is reachable.
- JSON values of unexpected types in the catalog are not modelled. A "sequence" that is a
  JSON string is truthy and iterable, so the source would play it character by character;
  `Catalog.CatalogEntry` holds either a list of names or no sequence at all.
- Calls into the keyboard and mouse controllers and the listeners are taken never to raise.
  The `except` paths of `run_macro_sequence`, of the arc thrower loop and of the press and
  click handlers are not modelled.
- App.MacroApp.UpdateRailgunFallback: takes a boolean `checked` and assumes that
  hellmacro.py:809's `state == Qt.Checked` is true exactly when the box is ticked. That line
  compares the int that `stateChanged` delivers with a Qt enum, so the outcome depends on the
  Qt binding: with a Python-enum `Qt.CheckState` the comparison is never true. This is an
  assumption of the model, not something shown about the source. The handler's second run,
  triggered by `load_profile`'s `setChecked` (hellmacro.py:996), sets the flag to the value it
  already holds under this assumption and is not modelled separately.
