/**
  The application object, `MacroApp` (hellmacro.py:52-1345), with the attributes its handlers
  update in place. Each method changes the fields the source's handler changes and is proved
  to leave them as the corresponding function of the other modules says. The run-time
  attributes (`running_macro`, the two mode flags, the button state, the timestamps, the
  timer and the two worker threads) live in one `RunState` record, updated one attribute
  at a time as the source assigns them.
*/
module App {
  import opened Base
  import opened Tokens
  import Catalog
  import opened Keybinds
  import opened Playback
  import opened RunStates
  import Tunables
  import Profiles
  import Dispatch

  class MacroApp {
    const catalog: map<string, Catalog.CatalogEntry>
    var profiles: map<string, Profiles.Profile>

    // The keybind table and the slot being captured.
    var keybindVars: seq<string>
    var supportKeybindVars: seq<string>
    var railgunKeybind: string
    var arcThrowerKeybind: string
    var activeKeybind: Option<SlotRef>
    /** The current text of the five stratagem combo boxes. */
    var selected: seq<string>

    /** The attributes the handlers and the worker threads update at run time. */
    var run: RunState

    // Tunables.
    var railgunTimeout: real
    var arcThrowerDelay: real
    var railgunUseKeyboardFallback: bool
    var macroDelay: real

    function Table(): BindTable
      reads this`keybindVars, this`supportKeybindVars, this`railgunKeybind, this`arcThrowerKeybind
    {
      BindTable(keybindVars, supportKeybindVars, railgunKeybind, arcThrowerKeybind)
    }

    function Settings(): Profiles.Settings
      reads this`keybindVars, this`selected, this`supportKeybindVars, this`railgunTimeout, this`arcThrowerDelay
      reads this`railgunKeybind, this`arcThrowerKeybind, this`railgunUseKeyboardFallback, this`macroDelay
    {
      Profiles.Settings(keybindVars, selected, supportKeybindVars, railgunTimeout, arcThrowerDelay,
                        railgunKeybind, arcThrowerKeybind, railgunUseKeyboardFallback, macroDelay)
    }

    /** The table has its five-slot lists and the slot being captured exists. */
    predicate TableShaped()
      reads this`keybindVars, this`supportKeybindVars, this`railgunKeybind, this`arcThrowerKeybind, this`activeKeybind
    {
      WellFormed(Table()) && Dispatch.ActiveValid(activeKeybind)
    }

    /** Five combo boxes, each showing a name it lists. */
    predicate SelectionShaped()
      reads this`selected
    {
      |selected| == StratagemSlotCount && forall i :: 0 <= i < |selected| ==> Catalog.Listed(catalog, selected[i])
    }

    /** Everything but the run-time state is in shape. */
    predicate Shaped()
      reads this`keybindVars, this`supportKeybindVars, this`railgunKeybind, this`arcThrowerKeybind, this`activeKeybind
      reads this`selected
    {
      TableShaped() && SelectionShaped()
    }

    predicate Valid()
      reads this`keybindVars, this`supportKeybindVars, this`railgunKeybind, this`arcThrowerKeybind, this`activeKeybind
      reads this`selected
      reads this`run
    {
      Shaped() && Inv(run)
    }

    /** `__init__`: defaults everywhere, then the last used profile is loaded. */
    constructor (catalog: map<string, Catalog.CatalogEntry>, profiles: map<string, Profiles.Profile>, lastProfile: string)
      ensures Valid()
      ensures this.catalog == catalog && this.profiles == profiles
      ensures run == Initial && activeKeybind == None
      ensures var r := Profiles.LoadProfile(catalog, Profiles.DefaultSettings, profiles, lastProfile);
              Settings() == if r.Ok? then r.value else Profiles.DefaultSettings
    {
      this.catalog := catalog;
      this.profiles := profiles;
      keybindVars := ["", "", "", "", ""];
      supportKeybindVars := ["", "", "", "", ""];
      railgunKeybind := "";
      arcThrowerKeybind := "";
      activeKeybind := None;
      selected := Profiles.DefaultSettings.stratagems;
      run := Initial;
      railgunTimeout := Tunables.DefaultRailgunTimeout;
      arcThrowerDelay := Tunables.DefaultArcThrowerDelay;
      railgunUseKeyboardFallback := false;
      macroDelay := Tunables.DefaultMacroDelay;
      new;
      LoadProfile(lastProfile);
    }

    /** `load_profile`: the named profile's settings are installed, the combo boxes moving only to names they list. */
    method LoadProfile(name: string)
      requires Shaped()
      modifies this`keybindVars, this`supportKeybindVars, this`selected, this`railgunTimeout, this`arcThrowerDelay
      modifies this`railgunKeybind, this`arcThrowerKeybind, this`railgunUseKeyboardFallback, this`macroDelay
      ensures Shaped()
      ensures var r := Profiles.LoadProfile(catalog, old(Settings()), profiles, name);
              Settings() == if r.Ok? then r.value else old(Settings())
    {
      var r := Profiles.LoadProfile(catalog, Settings(), profiles, name);
      if r.Err? {
        return;
      }
      var loaded := Profiles.Resolve(profiles[name]);
      keybindVars := loaded.keybinds;
      supportKeybindVars := loaded.supportKeybinds;
      SelectStratagems(loaded.stratagems);
      assert selected == r.value.stratagems;
      railgunTimeout := loaded.railgunTimeout;
      arcThrowerDelay := loaded.arcThrowerDelay;
      railgunKeybind := loaded.railgunKeybind;
      arcThrowerKeybind := loaded.arcThrowerKeybind;
      railgunUseKeyboardFallback := loaded.railgunUseKeyboardFallback;
      macroDelay := loaded.macroDelay;
    }

    /** The `setCurrentText` calls on the five combo boxes: each moves to its name only if it lists it. */
    method SelectStratagems(names: seq<string>)
      requires SelectionShaped() && |names| == StratagemSlotCount
      modifies this`selected
      ensures SelectionShaped()
      ensures forall i :: 0 <= i < StratagemSlotCount ==> selected[i] == Profiles.SelectIfListed(catalog, old(selected)[i], names[i])
    {
      for i := 0 to |selected|
        invariant |selected| == StratagemSlotCount
        invariant forall j :: 0 <= j < i ==> selected[j] == Profiles.SelectIfListed(catalog, old(selected)[j], names[j])
        invariant forall j :: i <= j < |selected| ==> selected[j] == old(selected)[j]
      {
        selected := selected[i := Profiles.SelectIfListed(catalog, selected[i], names[i])];
      }
    }

    /** `set_keybind`, `set_support_keybind` and the two toggle setters: start capturing a slot. */
    method SetKeybind(slot: SlotRef)
      requires Valid() && ValidSlot(slot)
      modifies this`activeKeybind
      ensures Valid() && activeKeybind == Some(slot)
    {
      activeKeybind := Some(slot);
    }

    /** The Clear buttons: the slot becomes unbound and nothing else changes. */
    method DeleteKeybind(slot: SlotRef)
      requires Valid() && ValidSlot(slot)
      modifies this`keybindVars, this`supportKeybindVars, this`railgunKeybind, this`arcThrowerKeybind
      ensures Valid() && Table() == Assign(old(Table()), slot, "")
    {
      Install(slot, "");
    }

    /** The user picks `name` in the i-th stratagem combo box. */
    method SelectStratagem(i: nat, name: string)
      requires Valid() && i < StratagemSlotCount
      modifies this`selected
      ensures Valid() && selected == old(selected)[i := Profiles.SelectIfListed(catalog, old(selected)[i], name)]
    {
      selected := selected[i := Profiles.SelectIfListed(catalog, selected[i], name)];
    }

    /** `toggle_railgun_safety`. */
    method ToggleRailgunSafety(now: real)
      requires Valid()
      modifies this`run
      ensures Valid() && run == ToggleRailgun(old(run), now)
    {
      if now - run.lastToggleRailgun < ToggleDebounce {
        return;
      }
      run := run.(lastToggleRailgun := now);
      var newState := !run.railgunSafety;
      if newState && run.arcThrowerRapidfire {
        run := run.(arcThrowerRapidfire := false);
        run := run.(output := run.output + [Release(MouseLeft)]);
      }
      run := run.(railgunSafety := newState);
      if !run.railgunSafety && run.railgunTimer.Some? {
        run := run.(railgunTimer := None);
      }
    }

    /** `toggle_arc_thrower_rapidfire`. */
    method ToggleArcThrowerRapidfire(now: real)
      requires Valid()
      modifies this`run
      ensures Valid() && run == ToggleArcThrower(old(run), now)
    {
      if now - run.lastToggleArc < ToggleDebounce {
        return;
      }
      run := run.(lastToggleArc := now);
      var newState := !run.arcThrowerRapidfire;
      if newState && run.railgunSafety {
        run := run.(railgunSafety := false);
        run := run.(railgunTimer := None);
      }
      run := run.(arcThrowerRapidfire := newState);
      if run.arcThrowerRapidfire && run.running {
        if run.arcLoop == Stopped {
          run := run.(arcLoop := AtLoopHead);
        }
      } else if !run.arcThrowerRapidfire {
        run := run.(output := run.output + [Release(MouseLeft)]);
      }
    }

    /** `stop_all_threads`. */
    method StopAllThreads()
      requires Shaped() && Exclusive(run) && PlaybackNonEmpty(run)
      modifies this`run
      ensures Valid() && run == RunStates.StopAllThreads(old(run))
    {
      if run.arcLoop != Stopped {
        run := run.(arcThrowerRapidfire := false);
      }
      if run.railgunTimer.Some? {
        run := run.(railgunTimer := Some(run.railgunTimer.value.(live := false)));
      }
    }

    /** `toggle_macro`: Start or Stop. */
    method ToggleMacro()
      requires Valid()
      modifies this`run
      ensures Valid() && run == RunStates.ToggleMacro(old(run))
    {
      run := run.(running := !run.running);
      if !run.running {
        run := run.(arcThrowerRapidfire := false);
        run := run.(railgunSafety := false);
        StopAllThreads();
      } else if run.arcThrowerRapidfire {
        if run.arcLoop == Stopped {
          run := run.(arcLoop := AtLoopHead);
        }
      }
    }

    /** The capture branch of `on_press` and `on_click`. */
    method CaptureToken(token: string, fromKeyboard: bool)
      requires Valid() && activeKeybind.Some?
      modifies this`keybindVars, this`supportKeybindVars, this`railgunKeybind, this`arcThrowerKeybind, this`activeKeybind
      ensures Valid()
      ensures Table() == Capture(old(Table()), old(activeKeybind.value), token, fromKeyboard).table
      ensures activeKeybind == if fromKeyboard && IsReservedKey(token) then old(activeKeybind) else None
    {
      var target := activeKeybind.value;
      ghost var c := Capture(Table(), target, token, fromKeyboard);
      if fromKeyboard && IsReservedKey(token) {
        return;
      }
      var owner := CheckKeybindConflict(Table(), token, target);
      if owner.Some? {
        assert c.table == Table();
        activeKeybind := None;
        return;
      }
      assert c.table == Assign(Table(), target, token);
      Install(target, token);
      activeKeybind := None;
    }

    /** The `isinstance` chain that stores a captured token in its slot. */
    method Install(target: SlotRef, token: string)
      requires Valid() && ValidSlot(target)
      modifies this`keybindVars, this`supportKeybindVars, this`railgunKeybind, this`arcThrowerKeybind
      ensures Valid() && Table() == Assign(old(Table()), target, token)
    {
      match target
      case Stratagem(i) => keybindVars := keybindVars[i := token];
      case Support(i) => supportKeybindVars := supportKeybindVars[i := token];
      case Railgun => railgunKeybind := token;
      case ArcThrower => arcThrowerKeybind := token;
    }

    /** The dispatch branch of `on_press` and `on_click`: toggle a mode, then launch. */
    method DispatchToken(token: string, now: real)
      requires Valid() && activeKeybind.None? && run.running
      modifies this`run
      ensures Valid()
      ensures run == Dispatch.DispatchPress(old(run), Table(), selected, catalog, token, now)
    {
      ghost var before := run;
      ToggleFor(token, now);
      ghost var toggled := run;
      assert Dispatch.DispatchPress(before, Table(), selected, catalog, token, now)
          == if toggled.playback.Some? then toggled else toggled.(playback := Dispatch.Launch(Table(), selected, catalog, token));
      var launched := Dispatch.SelectPlayback(Table(), selected, catalog, token, run.playback.Some?);
      if launched.Some? {
        run := run.(playback := launched);
      }
    }

    /** The weapon-mode toggle of the dispatch branch. */
    method ToggleFor(token: string, now: real)
      requires Valid()
      modifies this`run
      ensures Valid() && run == Dispatch.Toggled(old(run), Table(), token, now)
    {
      if token == railgunKeybind {
        ToggleRailgunSafety(now);
      } else if token == arcThrowerKeybind {
        ToggleArcThrowerRapidfire(now);
      }
    }

    /** A token reaches `on_press` or `on_click`: capture it, or toggle and launch. */
    method HandleToken(token: string, fromKeyboard: bool, now: real)
      requires Valid()
      modifies this`keybindVars, this`supportKeybindVars, this`railgunKeybind, this`arcThrowerKeybind, this`activeKeybind
      modifies this`run
      ensures Valid()
      ensures Dispatch.Pressed(Table(), activeKeybind, run)
           == Dispatch.HandleToken(old(Table()), old(activeKeybind), old(run), selected, catalog, token, fromKeyboard, now)
    {
      if activeKeybind.Some? {
        CaptureToken(token, fromKeyboard);
      } else if run.running {
        DispatchToken(token, now);
      }
    }

    /** `on_press`. */
    method OnKeyPress(raw: string, now: real)
      requires Valid()
      modifies this`keybindVars, this`supportKeybindVars, this`railgunKeybind, this`arcThrowerKeybind, this`activeKeybind
      modifies this`run
      ensures Valid()
      ensures Dispatch.Pressed(Table(), activeKeybind, run)
           == Dispatch.OnPress(old(Table()), old(activeKeybind), old(run), selected, catalog, raw, now)
    {
      var token := NormalizeKey(raw);
      HandleToken(token, true, now);
    }

    /** `on_click`. */
    method OnClick(button: MouseButton, pressed: bool, now: real)
      requires Valid()
      modifies this`keybindVars, this`supportKeybindVars, this`railgunKeybind, this`arcThrowerKeybind, this`activeKeybind
      modifies this`run
      ensures Valid()
      ensures Dispatch.Pressed(Table(), activeKeybind, run)
           == Dispatch.OnClick(old(Table()), old(activeKeybind), old(run), selected, catalog, button, pressed, now, railgunTimeout)
    {
      if button == Left {
        run := run.(leftClickActive := pressed);
        run := run.(leftClickTime := if pressed then now else run.leftClickTime);
        if pressed && run.railgunSafety && run.running {
          run := run.(railgunTimer := Some(RailgunTimer(now + railgunTimeout - TimerLead, true)));
        } else if !pressed && run.railgunTimer.Some? {
          run := run.(railgunTimer := None);
        }
      }
      if pressed && (button == X1 || button == X2) {
        var token := ButtonToken(button);
        HandleToken(token, false, now);
      }
    }

    /** `perform_mouse_release`, run by the railgun timer when it fires. */
    method PerformMouseRelease(now: real)
      requires Valid() && TimerLive(run) && now >= run.railgunTimer.value.deadline
      modifies this`run
      ensures Valid() && run == TimerFires(old(run), now, railgunUseKeyboardFallback)
    {
      run := run.(railgunTimer := Some(run.railgunTimer.value.(live := false)));
      if !(run.leftClickActive && run.railgunSafety && run.running) {
        return;
      }
      if now - run.lastRailgunRelease < RailgunDebounce {
        return;
      }
      run := run.(lastRailgunRelease := now);
      if railgunUseKeyboardFallback {
        run := run.(output := run.output + [Press(DigitOne), Release(DigitOne)]);
      } else {
        run := run.(output := run.output + [Release(MouseLeft)]);
      }
      run := run.(leftClickActive := false);
    }

    /** The arc thrower thread tests its loop condition. */
    method ArcThrowerLoopHead()
      requires Valid() && run.arcLoop == AtLoopHead
      modifies this`run
      ensures Valid() && run == ArcLoopHead(old(run))
    {
      if !(run.running && run.arcThrowerRapidfire) {
        run := run.(arcLoop := Stopped);
      } else if run.leftClickActive {
        run := run.(arcLoop := HoldSleep);
      }
    }

    /** The arc thrower thread wakes after holding for `arcThrowerDelay`. */
    method ArcThrowerLoopWake()
      requires Valid() && run.arcLoop == HoldSleep
      modifies this`run
      ensures Valid() && run == ArcLoopWake(old(run))
    {
      if run.arcThrowerRapidfire && run.leftClickActive {
        run := run.(output := run.output + [Release(MouseLeft), Press(MouseLeft)]);
      }
      run := run.(arcLoop := AtLoopHead);
    }

    /** The launched playback thread runs `run_macro_sequence` to its end. */
    method RunLaunchedPlayback(observed: seq<bool>)
      requires Valid() && run.playback.Some? && |observed| == |run.playback.value| + 1
      modifies this`run
      ensures Valid() && run == FinishPlayback(old(run), observed)
    {
      var trace := RunMacroSequence(run.playback.value, false, observed);
      run := run.(output := run.output + trace);
      run := run.(playback := None);
    }

    /** `test_stratagem`: play the selected entry's sequence, even an empty one. */
    method TestStratagem(i: nat)
      requires Valid() && i < StratagemSlotCount
      modifies this`run
      ensures Valid()
      ensures var sequence := Catalog.TestSequence(catalog, selected[i]);
              run == if sequence.Some? then TestPlayback(old(run), sequence.value) else old(run)
    {
      var sequence := Catalog.TestSequence(catalog, selected[i]);
      if sequence.Some? {
        var trace := RunMacroSequence(sequence.value, true, seq(|sequence.value| + 1, _ => true));
        TestPlaysEverything(sequence.value, seq(|sequence.value| + 1, _ => true));
        run := run.(output := run.output + trace);
      }
    }

    /** `test_support_stratagem`: play the built-in sequence of support slot i. */
    method TestSupportStratagem(i: nat)
      requires Valid() && i < SupportSlotCount
      modifies this`run
      ensures Valid() && run == TestPlayback(old(run), Catalog.SupportSequences[i])
    {
      var sequence := Catalog.SupportSequences[i];
      if sequence != [] {
        var trace := RunMacroSequence(sequence, true, seq(|sequence| + 1, _ => true));
        TestPlaysEverything(sequence, seq(|sequence| + 1, _ => true));
        run := run.(output := run.output + trace);
      }
    }

    /** `update_arc_thrower_delay`; `entry` is the parsed text, None when it is not a number. */
    method UpdateArcThrowerDelay(entry: Option<real>)
      modifies this`arcThrowerDelay
      ensures arcThrowerDelay == Tunables.Updated(old(arcThrowerDelay), Tunables.CheckArcThrowerDelay(entry))
    {
      var r := Tunables.CheckArcThrowerDelay(entry);
      if r.Ok? {
        arcThrowerDelay := r.value;
      }
    }

    /** `update_railgun_timeout`; `entry` is the parsed text, None when it is not a number. */
    method UpdateRailgunTimeout(entry: Option<real>)
      modifies this`railgunTimeout
      ensures railgunTimeout == Tunables.Updated(old(railgunTimeout), Tunables.CheckRailgunTimeout(entry))
    {
      var r := Tunables.CheckRailgunTimeout(entry);
      if r.Ok? {
        railgunTimeout := r.value;
      }
    }

    /** `update_railgun_fallback`: the checkbox state. */
    method UpdateRailgunFallback(checked: bool)
      modifies this`railgunUseKeyboardFallback
      ensures railgunUseKeyboardFallback == checked
    {
      railgunUseKeyboardFallback := checked;
    }

    /** `create_new_profile`. */
    method CreateProfile(entryText: string)
      modifies this`profiles
      ensures profiles == Profiles.Committed(old(profiles), Profiles.CreateProfile(old(profiles), entryText, Profiles.Export(Settings())))
    {
      var r := Profiles.CreateProfile(profiles, entryText, Profiles.Export(Settings()));
      profiles := Profiles.Committed(profiles, r);
    }

    /** `save_profile`; `confirmed` is the answer to the overwrite question. */
    method SaveProfile(selectedProfile: string, confirmed: bool)
      modifies this`profiles
      ensures profiles == Profiles.Committed(old(profiles), Profiles.SaveProfile(old(profiles), selectedProfile, confirmed, Profiles.Export(Settings())))
    {
      var r := Profiles.SaveProfile(profiles, selectedProfile, confirmed, Profiles.Export(Settings()));
      if r.Ok? {
        profiles := r.value;
      }
    }

    /** `rename_profile`. */
    method RenameProfile(selectedProfile: string, entryText: string)
      modifies this`profiles
      ensures profiles == Profiles.Committed(old(profiles), Profiles.RenameProfile(old(profiles), selectedProfile, entryText))
    {
      var r := Profiles.RenameProfile(profiles, selectedProfile, entryText);
      if r.Ok? {
        profiles := r.value;
      }
    }

    /** `confirm_delete_profile` and `delete_profile`: after a deletion the Default profile is loaded. */
    method ConfirmDeleteProfile(selectedProfile: string, confirmed: bool)
      requires Shaped()
      modifies this`profiles
      modifies this`keybindVars, this`supportKeybindVars, this`selected, this`railgunTimeout, this`arcThrowerDelay
      modifies this`railgunKeybind, this`arcThrowerKeybind, this`railgunUseKeyboardFallback, this`macroDelay
      ensures Shaped()
      ensures var r := Profiles.DeleteProfile(old(profiles), selectedProfile, confirmed);
              && profiles == Profiles.Committed(old(profiles), r)
              && (r.Err? ==> Settings() == old(Settings()))
              && (r.Ok? ==> var l := Profiles.LoadProfile(catalog, old(Settings()), profiles, Profiles.DefaultName);
                            Settings() == if l.Ok? then l.value else old(Settings()))
    {
      var r := Profiles.DeleteProfile(profiles, selectedProfile, confirmed);
      if r.Err? {
        return;
      }
      profiles := r.value;
      LoadProfile(Profiles.DefaultName);
    }
  }
}
