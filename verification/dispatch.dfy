/**
  What a key press or a mouse click does once it has been turned into a token
  (hellmacro.py:1135-1308): while a slot is being captured the token goes to the capture;
  otherwise, with the system running, it toggles a weapon mode and launches the first
  stratagem slot bound to it, unless a playback is already in flight.
*/
module Dispatch {
  import opened Base
  import opened Scan
  import opened Tokens
  import Catalog
  import opened Keybinds
  import opened RunStates

  /** Stratagem slots and support slots: the slots a press can launch, by rank. */
  const LaunchSlotCount: nat := 10

  /**
    The sequence the slot of rank k would play: a stratagem slot plays the catalog entry of
    its selected name when that entry has a non-empty sequence; a support slot always plays
    its built-in sequence.
  */
  function SlotSequence(selected: seq<string>, catalog: map<string, Catalog.CatalogEntry>, k: nat): (r: Option<seq<string>>)
    requires |selected| == StratagemSlotCount
    ensures r.Some? ==> r.value != []
    ensures k < 5 ==> r == Catalog.LaunchSequence(catalog, selected[k])
    ensures 5 <= k < LaunchSlotCount ==> r == Some(Catalog.SupportSequences[k - 5])
    ensures k >= LaunchSlotCount ==> r == None
  {
    if k < 5 then Catalog.LaunchSequence(catalog, selected[k])
    else if k < LaunchSlotCount then Some(Catalog.SupportSequences[k - 5])
    else None
  }

  /** The slot of rank k is bound to `token` and has something to play. */
  predicate Triggers(t: BindTable, selected: seq<string>, catalog: map<string, Catalog.CatalogEntry>, token: string, k: nat)
    requires WellFormed(t) && |selected| == StratagemSlotCount
  {
    k < LaunchSlotCount && Binding(t, SlotAt(k)) == token && SlotSequence(selected, catalog, k).Some?
  }

  /** The rank of the first triggered slot, or `LaunchSlotCount` when none is. */
  function FirstTriggered(t: BindTable, selected: seq<string>, catalog: map<string, Catalog.CatalogEntry>, token: string): (k: nat)
    requires WellFormed(t) && |selected| == StratagemSlotCount
    ensures k <= LaunchSlotCount
    ensures k < LaunchSlotCount ==> Triggers(t, selected, catalog, token, k)
    ensures forall j :: 0 <= j < k ==> !Triggers(t, selected, catalog, token, j)
  {
    FirstFrom((j: nat) => Triggers(t, selected, catalog, token, j), 0, LaunchSlotCount)
  }

  /**
    The sequence a press of `token` launches when no playback is in flight: that of the first
    triggered slot, stratagem slots before support slots, each in index order.
  */
  function Launch(t: BindTable, selected: seq<string>, catalog: map<string, Catalog.CatalogEntry>, token: string): (r: Option<seq<string>>)
    requires WellFormed(t) && |selected| == StratagemSlotCount
    ensures r.Some? ==> r.value != []
    ensures r.None? <==> forall k :: 0 <= k < LaunchSlotCount ==> !Triggers(t, selected, catalog, token, k)
    ensures r.Some? ==> exists k :: 0 <= k < LaunchSlotCount && Triggers(t, selected, catalog, token, k)
                          && r == SlotSequence(selected, catalog, k)
                          && forall j :: 0 <= j < k ==> !Triggers(t, selected, catalog, token, j)
  {
    var k := FirstTriggered(t, selected, catalog, token);
    if k < LaunchSlotCount then SlotSequence(selected, catalog, k) else None
  }

  /**
    The two launch loops of the press handler. `busy` is whether a playback thread is alive
    when the press arrives; a launch makes the loops see a live thread from then on.
  */
  method SelectPlayback(t: BindTable, selected: seq<string>, catalog: map<string, Catalog.CatalogEntry>, token: string, busy: bool)
    returns (launched: Option<seq<string>>)
    requires WellFormed(t) && |selected| == StratagemSlotCount
    ensures launched == if busy then None else Launch(t, selected, catalog, token)
  {
    ghost var first := FirstTriggered(t, selected, catalog, token);
    launched := None;
    var inFlight := busy;
    for i := 0 to |t.keybinds|
      invariant inFlight == (busy || launched.Some?)
      invariant busy ==> launched.None?
      invariant !busy ==> launched == if first < i then SlotSequence(selected, catalog, first) else None
    {
      if t.keybinds[i] == token && i < |selected| {
        var sequence := Catalog.LaunchSequence(catalog, selected[i]);
        if sequence.Some? {
          if inFlight {
            continue;
          }
          assert Triggers(t, selected, catalog, token, i);
          launched := sequence;
          inFlight := true;
        }
      }
    }
    for i := 0 to |t.support|
      invariant inFlight == (busy || launched.Some?)
      invariant busy ==> launched.None?
      invariant !busy ==> launched == if first < 5 + i then SlotSequence(selected, catalog, first) else None
    {
      if t.support[i] == token {
        if inFlight {
          continue;
        }
        assert Triggers(t, selected, catalog, token, 5 + i);
        launched := Some(Catalog.SupportSequences[i]);
        inFlight := true;
      }
    }
  }

  /** The weapon-mode toggle a press performs: Railgun first, Arc Thrower only otherwise. */
  function Toggled(s: RunState, t: BindTable, token: string, now: real): (r: RunState)
    requires Inv(s) && WellFormed(t)
    ensures Inv(r)
    ensures token == t.railgun ==> r == ToggleRailgun(s, now)
    ensures token != t.railgun && token == t.arcThrower ==> r == ToggleArcThrower(s, now)
    ensures token != t.railgun && token != t.arcThrower ==> r == s
  {
    if token == t.railgun then ToggleRailgun(s, now)
    else if token == t.arcThrower then ToggleArcThrower(s, now)
    else s
  }

  /** The launch half of a press, after its toggle: it starts only when no playback is in flight. */
  function LaunchAfter(s: RunState, launch: Option<seq<string>>): (r: RunState)
    requires Inv(s) && (launch.Some? ==> launch.value != [])
    ensures Inv(r)
    ensures s.playback.Some? ==> r == s
    ensures s.playback.None? ==> r == s.(playback := launch)
  {
    if s.playback.Some? then s
    else match launch
      case Some(sequence) => StartPlayback(s, sequence)
      case None => s
  }

  /** A press of `token` when no slot is being captured. */
  function DispatchPress(s: RunState, t: BindTable, selected: seq<string>, catalog: map<string, Catalog.CatalogEntry>,
                         token: string, now: real): (r: RunState)
    requires Inv(s) && WellFormed(t) && |selected| == StratagemSlotCount
    ensures Inv(r)
    ensures !s.running ==> r == s
    ensures s.running ==> r.(playback := s.playback) == Toggled(s, t, token, now)
    ensures s.playback.Some? ==> r.playback == s.playback
    ensures s.running && s.playback.None? ==> r.playback == Launch(t, selected, catalog, token)
  {
    if !s.running then s
    else LaunchAfter(Toggled(s, t, token, now), Launch(t, selected, catalog, token))
  }

  /** The toggle action a press names, if any. */
  function ToggleActions(t: BindTable, token: string, now: real): (actions: seq<Action>)
    ensures |actions| <= 1
  {
    if token == t.railgun then [ToggleRailgunAt(now)]
    else if token == t.arcThrower then [ToggleArcThrowerAt(now)]
    else []
  }

  /** The launch action a press amounts to, if it launches. */
  function LaunchActions(busy: bool, launch: Option<seq<string>>): (actions: seq<Action>)
    ensures |actions| <= 1
  {
    if !busy && launch.Some? then [LaunchAt(launch.value)] else []
  }

  /** The state-machine actions a press amounts to: the toggle it names, then its launch. */
  function PressActions(s: RunState, t: BindTable, selected: seq<string>, catalog: map<string, Catalog.CatalogEntry>,
                        token: string, now: real): (actions: seq<Action>)
    requires WellFormed(t) && |selected| == StratagemSlotCount
    ensures |actions| <= 2
    ensures !s.running ==> actions == []
  {
    if !s.running then []
    else ToggleActions(t, token, now) + LaunchActions(s.playback.Some?, Launch(t, selected, catalog, token))
  }

  /** The launch half of a press is a run of at most one `LaunchAt` action. */
  lemma LaunchAfterIsRun(s: RunState, launch: Option<seq<string>>, railgunTimeout: real, keyboardFallback: bool)
    requires Inv(s) && s.running && (launch.Some? ==> launch.value != [])
    ensures LaunchAfter(s, launch) == Run(s, LaunchActions(s.playback.Some?, launch), railgunTimeout, keyboardFallback)
  {
    if s.playback.None? && launch.Some? {
      RunCons(s, LaunchAt(launch.value), [], railgunTimeout, keyboardFallback);
      assert [LaunchAt(launch.value)] + [] == [LaunchAt(launch.value)];
    }
  }

  /**
    A press is a run of the state machine's own actions, so `RunStates.RunKeepsInv` and
    `RunStates.RunExtendsOutput` cover key-press launches too.
  */
  lemma DispatchPressIsRun(s: RunState, t: BindTable, selected: seq<string>, catalog: map<string, Catalog.CatalogEntry>,
                           token: string, now: real, railgunTimeout: real, keyboardFallback: bool)
    requires Inv(s) && WellFormed(t) && |selected| == StratagemSlotCount
    ensures DispatchPress(s, t, selected, catalog, token, now) ==
            Run(s, PressActions(s, t, selected, catalog, token, now), railgunTimeout, keyboardFallback)
  {
    if s.running {
      var toggled := Toggled(s, t, token, now);
      var launch := Launch(t, selected, catalog, token);
      var tail := LaunchActions(s.playback.Some?, launch);
      assert toggled.running && toggled.playback == s.playback;
      LaunchAfterIsRun(toggled, launch, railgunTimeout, keyboardFallback);
      if token == t.railgun {
        RunCons(s, ToggleRailgunAt(now), tail, railgunTimeout, keyboardFallback);
      } else if token == t.arcThrower {
        RunCons(s, ToggleArcThrowerAt(now), tail, railgunTimeout, keyboardFallback);
      } else {
        assert [] + tail == tail;
      }
    }
  }

  /**
    With no two slots sharing a token, a press launches exactly the slot bound to it (when
    that slot has something to play).
  */
  lemma LaunchIsTheBoundSlot(t: BindTable, selected: seq<string>, catalog: map<string, Catalog.CatalogEntry>, token: string, k: nat)
    requires WellFormed(t) && |selected| == StratagemSlotCount && Unique(t) && token != ""
    requires Triggers(t, selected, catalog, token, k)
    ensures Launch(t, selected, catalog, token) == SlotSequence(selected, catalog, k)
  {
    var first := FirstTriggered(t, selected, catalog, token);
    assert first <= k;
    assert Rank(SlotAt(first)) == first && Rank(SlotAt(k)) == k;
    assert Binding(t, SlotAt(first)) == Binding(t, SlotAt(k));
    assert first == k;
  }

  /** With no two slots sharing a token, a toggle key never launches anything. */
  lemma ToggleKeyLaunchesNothing(t: BindTable, selected: seq<string>, catalog: map<string, Catalog.CatalogEntry>, token: string)
    requires WellFormed(t) && |selected| == StratagemSlotCount && Unique(t) && token != ""
    requires token == t.railgun || token == t.arcThrower
    ensures Launch(t, selected, catalog, token) == None
  {
    forall k | 0 <= k < LaunchSlotCount
      ensures !Triggers(t, selected, catalog, token, k)
    {
      var slot := if token == t.railgun then Railgun else ArcThrower;
      assert Binding(t, slot) == token;
      assert SlotAt(k) != slot;
    }
  }

  /** The handler's result: the table, the slot still being captured, the run-time state. */
  datatype Pressed = Pressed(table: BindTable, active: Option<SlotRef>, state: RunState)

  predicate ActiveValid(active: Option<SlotRef>) {
    active.Some? ==> ValidSlot(active.value)
  }

  /** A token from the keyboard or a side mouse button reaches the handler. */
  function HandleToken(t: BindTable, active: Option<SlotRef>, s: RunState, selected: seq<string>,
                       catalog: map<string, Catalog.CatalogEntry>, token: string, fromKeyboard: bool, now: real): (p: Pressed)
    requires WellFormed(t) && ActiveValid(active) && Inv(s) && |selected| == StratagemSlotCount
    ensures WellFormed(p.table) && ActiveValid(p.active) && Inv(p.state)
    ensures active.Some? ==> p.state == s && p.table == Capture(t, active.value, token, fromKeyboard).table
    ensures active.Some? ==> (p.active == active <==> fromKeyboard && IsReservedKey(token))
    ensures active.Some? && !(fromKeyboard && IsReservedKey(token)) ==> p.active == None
    ensures active.None? ==> p == Pressed(t, None, DispatchPress(s, t, selected, catalog, token, now))
  {
    if active.Some? then
      var c := Capture(t, active.value, token, fromKeyboard);
      Pressed(c.table, if c.StillCapturing() then active else None, s)
    else
      Pressed(t, None, DispatchPress(s, t, selected, catalog, token, now))
  }

  /** `on_press`: the key is normalised to a token and handled. */
  function OnPress(t: BindTable, active: Option<SlotRef>, s: RunState, selected: seq<string>,
                   catalog: map<string, Catalog.CatalogEntry>, raw: string, now: real): (p: Pressed)
    requires WellFormed(t) && ActiveValid(active) && Inv(s) && |selected| == StratagemSlotCount
    ensures WellFormed(p.table) && ActiveValid(p.active) && Inv(p.state)
    ensures p == HandleToken(t, active, s, selected, catalog, NormalizeKey(raw), true, now)
    ensures active.Some? ==> p.state == s
    ensures active.None? ==> p.table == t && p.active == None
    ensures active.None? && !s.running ==> p == Pressed(t, None, s)
  {
    HandleToken(t, active, s, selected, catalog, NormalizeKey(raw), true, now)
  }

  /**
    `on_click`: the left button drives the railgun timer; a press of a side button is handled
    like a key, except that no key is reserved; other buttons do nothing more.
  */
  function OnClick(t: BindTable, active: Option<SlotRef>, s: RunState, selected: seq<string>,
                   catalog: map<string, Catalog.CatalogEntry>, button: MouseButton, pressed: bool, now: real,
                   railgunTimeout: real): (p: Pressed)
    requires WellFormed(t) && ActiveValid(active) && Inv(s) && |selected| == StratagemSlotCount
    ensures WellFormed(p.table) && ActiveValid(p.active) && Inv(p.state)
    ensures button == Left ==> p == Pressed(t, active, LeftButton(s, pressed, now, railgunTimeout))
    ensures pressed && (button == X1 || button == X2) ==>
              p == HandleToken(t, active, s, selected, catalog, ButtonToken(button), false, now)
    ensures !pressed && button != Left ==> p == Pressed(t, active, s)
    ensures button == Right || button == Middle ==> p == Pressed(t, active, s)
  {
    var s1 := if button == Left then LeftButton(s, pressed, now, railgunTimeout) else s;
    if pressed && (button == X1 || button == X2) then
      HandleToken(t, active, s1, selected, catalog, ButtonToken(button), false, now)
    else
      Pressed(t, active, s1)
  }

  /** A side button press always ends a capture: either it is installed or it conflicts. */
  lemma SideButtonEndsCapture(t: BindTable, active: Option<SlotRef>, s: RunState, selected: seq<string>,
                              catalog: map<string, Catalog.CatalogEntry>, button: MouseButton, now: real, railgunTimeout: real)
    requires WellFormed(t) && ActiveValid(active) && Inv(s) && |selected| == StratagemSlotCount
    requires button == X1 || button == X2
    ensures OnClick(t, active, s, selected, catalog, button, true, now, railgunTimeout).active == None
  {
  }

  /** Esc, Enter and Tab never end a keyboard capture and never change the table. */
  lemma ReservedKeyKeepsCapture(t: BindTable, target: SlotRef, s: RunState, selected: seq<string>,
                                catalog: map<string, Catalog.CatalogEntry>, raw: string, now: real)
    requires WellFormed(t) && ValidSlot(target) && Inv(s) && |selected| == StratagemSlotCount
    requires IsReservedKey(NormalizeKey(raw))
    ensures OnPress(t, Some(target), s, selected, catalog, raw, now) == Pressed(t, Some(target), s)
  {
  }

  /** A handled token never creates a duplicate binding. */
  lemma HandleTokenPreservesUnique(t: BindTable, active: Option<SlotRef>, s: RunState, selected: seq<string>,
                                   catalog: map<string, Catalog.CatalogEntry>, token: string, fromKeyboard: bool, now: real)
    requires WellFormed(t) && ActiveValid(active) && Inv(s) && |selected| == StratagemSlotCount && Unique(t)
    ensures Unique(HandleToken(t, active, s, selected, catalog, token, fromKeyboard, now).table)
  {
    if active.Some? {
      CapturePreservesUnique(t, active.value, token, fromKeyboard);
    }
  }
}
