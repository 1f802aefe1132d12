/**
  The run-time state of the macro system and its transitions: the Start/Stop toggle
  (hellmacro.py:1061-1086, 1316-1323), the two mutually exclusive weapon modes with their
  debounce (hellmacro.py:733-806), the left-button handling that arms the railgun timer
  (hellmacro.py:1219-1232), the timer callback (hellmacro.py:691-711), one step of the arc
  thrower loop (hellmacro.py:713-731), and the completion of a launched playback
  (hellmacro.py:1088-1119). Each handler runs atomically; threads are reduced to the state they
  are in.
*/
module RunStates {
  import opened Base
  import opened Playback

  /** A toggle arriving sooner than this after the previous one of the same mode is ignored. */
  const ToggleDebounce: real := 0.2
  /** A timer release arriving sooner than this after the previous release is ignored. */
  const RailgunDebounce: real := 0.2
  /** The timer fires this long before the configured timeout. */
  const TimerLead: real := 0.05

  /** A started railgun timer; `live` is false once it has been cancelled or has fired. */
  datatype RailgunTimer = RailgunTimer(deadline: real, live: bool)

  /** Where the arc thrower thread is: not alive, about to test its loop condition, or holding. */
  datatype ArcLoop = Stopped | AtLoopHead | HoldSleep

  datatype RunState = RunState(
    running: bool,
    railgunSafety: bool,
    arcThrowerRapidfire: bool,
    leftClickActive: bool,
    leftClickTime: real,
    lastRailgunRelease: real,
    lastToggleRailgun: real,
    lastToggleArc: real,
    railgunTimer: Option<RailgunTimer>,
    arcLoop: ArcLoop,
    /** The sequence the playback thread is playing, while it is alive. */
    playback: Option<seq<string>>,
    /** Every input event synthesised so far, in order. */
    output: seq<Event>)

  const Initial: RunState :=
    RunState(false, false, false, false, 0.0, 0.0, 0.0, 0.0, None, Stopped, None, [])

  predicate TimerLive(s: RunState) {
    s.railgunTimer.Some? && s.railgunTimer.value.live
  }

  /**
    The invariant every handler keeps: the two weapon modes are never on together, a live
    timer only exists while the left button is held under railgun safety with the system
    running, and a playback in flight has something to play.
  */
  predicate Inv(s: RunState) {
    Exclusive(s) && TimerGuarded(s) && PlaybackNonEmpty(s)
  }

  predicate Exclusive(s: RunState) {
    !(s.railgunSafety && s.arcThrowerRapidfire)
  }

  predicate TimerGuarded(s: RunState) {
    TimerLive(s) ==> s.railgunSafety && s.running && s.leftClickActive
  }

  predicate PlaybackNonEmpty(s: RunState) {
    s.playback.Some? ==> s.playback.value != []
  }

  lemma InitialInv()
    ensures Inv(Initial) && !TimerLive(Initial) && Initial.arcLoop == Stopped
  {
  }

  function Cancel(t: Option<RailgunTimer>): (r: Option<RailgunTimer>)
    ensures r.Some? <==> t.Some?
    ensures r.Some? ==> !r.value.live && r.value.deadline == t.value.deadline
  {
    match t
    case None => None
    case Some(timer) => Some(timer.(live := false))
  }

  /** `toggle_railgun_safety` at time `now`. */
  function ToggleRailgun(s: RunState, now: real): (r: RunState)
    requires Inv(s)
    ensures Inv(r)
    ensures now - s.lastToggleRailgun < ToggleDebounce ==> r == s
    ensures now - s.lastToggleRailgun >= ToggleDebounce ==>
      && r.railgunSafety == !s.railgunSafety
      && r.lastToggleRailgun == now
      && (r.railgunSafety ==> !r.arcThrowerRapidfire)
      && (!r.railgunSafety ==> r.railgunTimer == None)
      && (r.railgunSafety ==> r.railgunTimer == s.railgunTimer)
      && r.arcThrowerRapidfire == (s.arcThrowerRapidfire && !r.railgunSafety)
      && r.output == s.output + (if s.arcThrowerRapidfire && r.railgunSafety then [Release(MouseLeft)] else [])
    ensures r.running == s.running && r.leftClickActive == s.leftClickActive && r.leftClickTime == s.leftClickTime
    ensures r.lastRailgunRelease == s.lastRailgunRelease && r.lastToggleArc == s.lastToggleArc
    ensures r.arcLoop == s.arcLoop && r.playback == s.playback
  {
    if now - s.lastToggleRailgun < ToggleDebounce then s
    else
      var on := !s.railgunSafety;
      var s1 := s.(lastToggleRailgun := now);
      var s2 := if on && s.arcThrowerRapidfire
                then s1.(arcThrowerRapidfire := false, output := s1.output + [Release(MouseLeft)])
                else s1;
      var s3 := s2.(railgunSafety := on);
      if !on then s3.(railgunTimer := None) else s3
  }

  /** `toggle_arc_thrower_rapidfire` at time `now`. */
  function ToggleArcThrower(s: RunState, now: real): (r: RunState)
    requires Inv(s)
    ensures Inv(r)
    ensures now - s.lastToggleArc < ToggleDebounce ==> r == s
    ensures now - s.lastToggleArc >= ToggleDebounce ==>
      && r.arcThrowerRapidfire == !s.arcThrowerRapidfire
      && r.lastToggleArc == now
      && r.railgunSafety == (s.railgunSafety && !r.arcThrowerRapidfire)
      && (s.railgunSafety && r.arcThrowerRapidfire ==> r.railgunTimer == None)
      && (!(s.railgunSafety && r.arcThrowerRapidfire) ==> r.railgunTimer == s.railgunTimer)
      && (r.arcThrowerRapidfire && s.running && s.arcLoop == Stopped ==> r.arcLoop == AtLoopHead)
      && (!(r.arcThrowerRapidfire && s.running && s.arcLoop == Stopped) ==> r.arcLoop == s.arcLoop)
      && r.output == s.output + (if r.arcThrowerRapidfire then [] else [Release(MouseLeft)])
    ensures r.running == s.running && r.leftClickActive == s.leftClickActive && r.leftClickTime == s.leftClickTime
    ensures r.lastRailgunRelease == s.lastRailgunRelease && r.lastToggleRailgun == s.lastToggleRailgun
    ensures r.playback == s.playback
  {
    if now - s.lastToggleArc < ToggleDebounce then s
    else
      var on := !s.arcThrowerRapidfire;
      var s1 := s.(lastToggleArc := now);
      var s2 := if on && s.railgunSafety then s1.(railgunSafety := false, railgunTimer := None) else s1;
      var s3 := s2.(arcThrowerRapidfire := on);
      if on && s.running then
        (if s3.arcLoop == Stopped then s3.(arcLoop := AtLoopHead) else s3)
      else if !on then s3.(output := s3.output + [Release(MouseLeft)])
      else s3
  }

  /** `stop_all_threads`: the arc thread is told to stop and the railgun timer is cancelled. */
  function StopAllThreads(s: RunState): (r: RunState)
    requires Exclusive(s) && PlaybackNonEmpty(s)
    ensures Inv(r) && !TimerLive(r)
    ensures s.arcLoop != Stopped ==> !r.arcThrowerRapidfire
    ensures s.arcLoop == Stopped ==> r.arcThrowerRapidfire == s.arcThrowerRapidfire
    ensures r.railgunTimer.Some? <==> s.railgunTimer.Some?
    ensures r.(arcThrowerRapidfire := s.arcThrowerRapidfire, railgunTimer := s.railgunTimer) == s
  {
    var s1 := if s.arcLoop != Stopped then s.(arcThrowerRapidfire := false) else s;
    s1.(railgunTimer := Cancel(s1.railgunTimer))
  }

  /** `toggle_macro`: Start or Stop. */
  function ToggleMacro(s: RunState): (r: RunState)
    requires Inv(s)
    ensures Inv(r)
    ensures r.running == !s.running
    ensures !r.running ==> !r.railgunSafety && !r.arcThrowerRapidfire && !TimerLive(r)
    ensures !r.running ==> (r.railgunTimer.Some? <==> s.railgunTimer.Some?) && r.arcLoop == s.arcLoop
    ensures r.running ==> r.railgunSafety == s.railgunSafety && r.arcThrowerRapidfire == s.arcThrowerRapidfire
    ensures r.running ==> r.railgunTimer == s.railgunTimer
    ensures r.running && s.arcThrowerRapidfire && s.arcLoop == Stopped ==> r.arcLoop == AtLoopHead
    ensures r.running && !(s.arcThrowerRapidfire && s.arcLoop == Stopped) ==> r.arcLoop == s.arcLoop
    ensures r.output == s.output && r.playback == s.playback
    ensures r.leftClickActive == s.leftClickActive && r.leftClickTime == s.leftClickTime
    ensures r.lastRailgunRelease == s.lastRailgunRelease
    ensures r.lastToggleRailgun == s.lastToggleRailgun && r.lastToggleArc == s.lastToggleArc
  {
    if s.running then
      StopAllThreads(s.(running := false, arcThrowerRapidfire := false, railgunSafety := false))
    else if s.arcThrowerRapidfire && s.arcLoop == Stopped then
      s.(running := true, arcLoop := AtLoopHead)
    else
      s.(running := true)
  }

  /** The left-button part of `on_click`: record the button and arm or cancel the railgun timer. */
  function LeftButton(s: RunState, pressed: bool, now: real, railgunTimeout: real): (r: RunState)
    requires Inv(s)
    ensures Inv(r)
    ensures r.leftClickActive == pressed
    ensures r.leftClickTime == if pressed then now else s.leftClickTime
    ensures pressed && s.railgunSafety && s.running ==>
              r.railgunTimer == Some(RailgunTimer(now + railgunTimeout - TimerLead, true))
    ensures !pressed ==> r.railgunTimer == None && !TimerLive(r)
    ensures pressed && !(s.railgunSafety && s.running) ==> r.railgunTimer == s.railgunTimer && !TimerLive(r)
    ensures r.(leftClickActive := s.leftClickActive, leftClickTime := s.leftClickTime, railgunTimer := s.railgunTimer) == s
  {
    var s1 := s.(leftClickActive := pressed, leftClickTime := if pressed then now else s.leftClickTime);
    if pressed && s.railgunSafety && s.running then
      s1.(railgunTimer := Some(RailgunTimer(now + railgunTimeout - TimerLead, true)))
    else if !pressed && s.railgunTimer.Some? then
      s1.(railgunTimer := None)
    else
      s1
  }

  /** The events `perform_mouse_release` synthesises. */
  function ReleaseEvents(keyboardFallback: bool): (e: seq<Event>)
    ensures |e| > 0 && (e[|e| - 1] == Release(MouseLeft) || e[|e| - 1] == Release(DigitOne))
  {
    if keyboardFallback then [Press(DigitOne), Release(DigitOne)] else [Release(MouseLeft)]
  }

  /** `perform_mouse_release`: release the held railgun shot, at most once per debounce window. */
  function MouseRelease(s: RunState, now: real, keyboardFallback: bool): (r: RunState)
    requires Inv(s) && !TimerLive(s)
    ensures Inv(r)
    ensures !(s.leftClickActive && s.railgunSafety && s.running) ==> r == s
    ensures now - s.lastRailgunRelease < RailgunDebounce ==> r == s
    ensures s.leftClickActive && s.railgunSafety && s.running && now - s.lastRailgunRelease >= RailgunDebounce ==>
      && r.output == s.output + ReleaseEvents(keyboardFallback)
      && !r.leftClickActive
      && r.lastRailgunRelease == now
      && r.(output := s.output, leftClickActive := true, lastRailgunRelease := s.lastRailgunRelease) == s
  {
    if !(s.leftClickActive && s.railgunSafety && s.running) then s
    else if now - s.lastRailgunRelease < RailgunDebounce then s
    else s.(lastRailgunRelease := now, output := s.output + ReleaseEvents(keyboardFallback), leftClickActive := false)
  }

  /** The railgun timer fires: it is no longer live, and its callback runs. */
  function TimerFires(s: RunState, now: real, keyboardFallback: bool): (r: RunState)
    requires Inv(s) && TimerLive(s) && now >= s.railgunTimer.value.deadline
    ensures Inv(r) && !TimerLive(r)
    ensures r.railgunTimer == Some(s.railgunTimer.value.(live := false))
    ensures now - s.lastRailgunRelease >= RailgunDebounce ==>
              r.output == s.output + ReleaseEvents(keyboardFallback) && !r.leftClickActive && r.lastRailgunRelease == now
    ensures now - s.lastRailgunRelease < RailgunDebounce ==> r == s.(railgunTimer := r.railgunTimer)
    ensures r.(output := s.output, leftClickActive := s.leftClickActive, lastRailgunRelease := s.lastRailgunRelease,
               railgunTimer := s.railgunTimer) == s
  {
    MouseRelease(s.(railgunTimer := Some(s.railgunTimer.value.(live := false))), now, keyboardFallback)
  }

  /** The arc thrower thread at the head of its loop. */
  function ArcLoopHead(s: RunState): (r: RunState)
    requires Inv(s) && s.arcLoop == AtLoopHead
    ensures Inv(r)
    ensures r.arcLoop == Stopped <==> !(s.running && s.arcThrowerRapidfire)
    ensures r.arcLoop == HoldSleep <==> s.running && s.arcThrowerRapidfire && s.leftClickActive
    ensures r.(arcLoop := s.arcLoop) == s
  {
    if !(s.running && s.arcThrowerRapidfire) then s.(arcLoop := Stopped)
    else if !s.leftClickActive then s
    else s.(arcLoop := HoldSleep)
  }

  /** The arc thrower thread wakes after holding for the configured delay. */
  function ArcLoopWake(s: RunState): (r: RunState)
    requires Inv(s) && s.arcLoop == HoldSleep
    ensures Inv(r) && r.arcLoop == AtLoopHead
    ensures s.arcThrowerRapidfire && s.leftClickActive ==>
              r.output == s.output + [Release(MouseLeft), Press(MouseLeft)]
    ensures !(s.arcThrowerRapidfire && s.leftClickActive) ==> r.output == s.output
    ensures r.(arcLoop := s.arcLoop, output := s.output) == s
  {
    if !(s.arcThrowerRapidfire && s.leftClickActive) then s.(arcLoop := AtLoopHead)
    else s.(arcLoop := AtLoopHead, output := s.output + [Release(MouseLeft), Press(MouseLeft)])
  }

  /**
    The playback thread runs to its end; `observed` holds the values it reads of the running
    flag, which other handlers may change while it plays.
  */
  function FinishPlayback(s: RunState, observed: seq<bool>): (r: RunState)
    requires Inv(s) && s.playback.Some? && |observed| == |s.playback.value| + 1
    ensures Inv(r) && r.playback == None
    ensures r.output == s.output + PlaybackTrace(s.playback.value, false, observed)
    ensures r.(playback := s.playback, output := s.output) == s
  {
    s.(playback := None, output := s.output + PlaybackTrace(s.playback.value, false, observed))
  }

  /** A test playback from the user interface: every step plays, running or not. */
  function TestPlayback(s: RunState, sequence: seq<string>): (r: RunState)
    requires Inv(s)
    ensures Inv(r)
    ensures r.output == s.output + [Press(Ctrl)] + Taps(sequence) + [Release(Ctrl)]
    ensures r.(output := s.output) == s
  {
    var observed := seq(|sequence| + 1, _ => true);
    TestPlaysEverything(sequence, observed);
    s.(output := s.output + PlaybackTrace(sequence, true, observed))
  }

  /** Two toggles of the railgun mode within the debounce window act as one. */
  lemma ToggleRailgunDebounced(s: RunState, t1: real, t2: real)
    requires Inv(s) && s.lastToggleRailgun + ToggleDebounce <= t1 <= t2 < t1 + ToggleDebounce
    ensures ToggleRailgun(ToggleRailgun(s, t1), t2) == ToggleRailgun(s, t1)
  {
  }

  /** Turning a mode on turns the other one off, whatever the previous state. */
  lemma ModesExclusive(s: RunState, now: real)
    requires Inv(s)
    ensures ToggleRailgun(s, now).railgunSafety ==> !ToggleRailgun(s, now).arcThrowerRapidfire
    ensures ToggleArcThrower(s, now).arcThrowerRapidfire ==> !ToggleArcThrower(s, now).railgunSafety
  {
  }

  /** Once the timer has released the shot, a second callback does nothing until a new press. */
  lemma ReleaseAtMostOnce(s: RunState, t1: real, t2: real, fallback: bool)
    requires Inv(s) && TimerLive(s) && t1 >= s.railgunTimer.value.deadline
    requires t1 - s.lastRailgunRelease >= RailgunDebounce
    ensures MouseRelease(TimerFires(s, t1, fallback), t2, fallback) == TimerFires(s, t1, fallback)
  {
  }

  /**
    A key press launching a playback thread (hellmacro.py:1190-1213): the in-flight slot takes
    the sequence and nothing else changes.
  */
  function StartPlayback(s: RunState, sequence: seq<string>): (r: RunState)
    requires Inv(s) && sequence != []
    ensures Inv(r)
    ensures r.playback == Some(sequence)
    ensures r.(playback := s.playback) == s
  {
    s.(playback := Some(sequence))
  }

  /** One occurrence the state machine reacts to. */
  datatype Action =
    | ToggleRailgunAt(now: real)
    | ToggleArcThrowerAt(now: real)
    | StartStop
    | LeftButtonAt(pressed: bool, now: real)
    | TimerFiresAt(now: real)
    | ArcHead
    | ArcWake
    | LaunchAt(sequence: seq<string>)
    | PlaybackEnds(observed: seq<bool>)
    | Test(sequence: seq<string>)

  /** Whether an action can happen in a state: threads and timers act only while they exist. */
  predicate Enabled(s: RunState, a: Action) {
    match a
    case TimerFiresAt(now) => TimerLive(s) && now >= s.railgunTimer.value.deadline
    case ArcHead => s.arcLoop == AtLoopHead
    case ArcWake => s.arcLoop == HoldSleep
    case LaunchAt(sequence) => s.running && s.playback.None? && sequence != []
    case PlaybackEnds(observed) => s.playback.Some? && |observed| == |s.playback.value| + 1
    case _ => true
  }

  function Step(s: RunState, a: Action, railgunTimeout: real, keyboardFallback: bool): (r: RunState)
    requires Inv(s) && Enabled(s, a)
    ensures Inv(r)
  {
    match a
    case ToggleRailgunAt(now) => ToggleRailgun(s, now)
    case ToggleArcThrowerAt(now) => ToggleArcThrower(s, now)
    case StartStop => ToggleMacro(s)
    case LeftButtonAt(pressed, now) => LeftButton(s, pressed, now, railgunTimeout)
    case TimerFiresAt(now) => TimerFires(s, now, keyboardFallback)
    case ArcHead => ArcLoopHead(s)
    case ArcWake => ArcLoopWake(s)
    case LaunchAt(sequence) => StartPlayback(s, sequence)
    case PlaybackEnds(observed) => FinishPlayback(s, observed)
    case Test(sequence) => TestPlayback(s, sequence)
  }

  /** Runs a sequence of actions, stopping at the first one that is not enabled. */
  function Run(s: RunState, actions: seq<Action>, railgunTimeout: real, keyboardFallback: bool): RunState
    requires Inv(s)
    decreases |actions|
  {
    if actions == [] || !Enabled(s, actions[0]) then s
    else
      var next := Step(s, actions[0], railgunTimeout, keyboardFallback);
      Run(next, actions[1..], railgunTimeout, keyboardFallback)
  }

  /** A run that starts with an enabled action takes that step, then runs the rest. */
  lemma RunCons(s: RunState, a: Action, rest: seq<Action>, railgunTimeout: real, keyboardFallback: bool)
    requires Inv(s) && Enabled(s, a)
    ensures Run(s, [a] + rest, railgunTimeout, keyboardFallback)
         == Run(Step(s, a, railgunTimeout, keyboardFallback), rest, railgunTimeout, keyboardFallback)
  {
    assert ([a] + rest)[0] == a && ([a] + rest)[1..] == rest;
  }

  /**
    Every reachable state keeps the invariant: in particular railgun safety and arc thrower
    rapidfire are never on together, and the railgun timer is only live under a held trigger.
  */
  lemma {:induction false} RunKeepsInv(s: RunState, actions: seq<Action>, railgunTimeout: real, keyboardFallback: bool)
    requires Inv(s)
    decreases |actions|
    ensures Inv(Run(s, actions, railgunTimeout, keyboardFallback))
    ensures !Run(s, actions, railgunTimeout, keyboardFallback).railgunSafety
         || !Run(s, actions, railgunTimeout, keyboardFallback).arcThrowerRapidfire
  {
    if actions != [] && Enabled(s, actions[0]) {
      var next := Step(s, actions[0], railgunTimeout, keyboardFallback);
      RunKeepsInv(next, actions[1..], railgunTimeout, keyboardFallback);
    }
  }

  /** Output is only ever appended to. */
  lemma {:induction false} RunExtendsOutput(s: RunState, actions: seq<Action>, railgunTimeout: real, keyboardFallback: bool)
    requires Inv(s)
    decreases |actions|
    ensures s.output <= Run(s, actions, railgunTimeout, keyboardFallback).output
  {
    if actions != [] && Enabled(s, actions[0]) {
      var next := Step(s, actions[0], railgunTimeout, keyboardFallback);
      assert s.output <= next.output by {
        match actions[0]
        case ToggleRailgunAt(now) =>
        case ToggleArcThrowerAt(now) =>
        case StartStop =>
        case LeftButtonAt(pressed, now) =>
        case TimerFiresAt(now) =>
        case ArcHead =>
        case ArcWake =>
        case LaunchAt(sequence) =>
        case PlaybackEnds(observed) =>
        case Test(sequence) =>
      }
      RunExtendsOutput(next, actions[1..], railgunTimeout, keyboardFallback);
    }
  }
}
