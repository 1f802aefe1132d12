/**
  Sequence playback, `run_macro_sequence` (hellmacro.py:1088-1119), and the events the
  program synthesises through its keyboard and mouse controllers.
*/
module Playback {
  import opened Base
  
  /** The inputs the program presses and releases. */
  datatype Input = Ctrl | ArrowUp | ArrowDown | ArrowLeft | ArrowRight | DigitOne | MouseLeft

  /** One call to a controller's `press` or `release`. */
  datatype Event = Press(input: Input) | Release(input: Input)

  predicate IsArrow(k: Input) {
    k == ArrowUp || k == ArrowDown || k == ArrowLeft || k == ArrowRight
  }

  /** The direction `key_map`: "up", "down", "left" and "right"; anything else is skipped. */
  function DirectionKey(name: string): (r: Option<Input>)
    ensures r.Some? ==> IsArrow(r.value)
    ensures r.Some? <==> name in ["up", "down", "left", "right"]
  {
    if name == "up" then Some(ArrowUp)
    else if name == "down" then Some(ArrowDown)
    else if name == "left" then Some(ArrowLeft)
    else if name == "right" then Some(ArrowRight)
    else None
  }

  /** The recognised keys of a list of names, in order. */
  function Arrows(names: seq<string>): (r: seq<Input>)
    ensures forall i :: 0 <= i < |r| ==> IsArrow(r[i])
    ensures |r| <= |names|
  {
    if names == [] then []
    else
      var last := names[|names| - 1];
      Arrows(names[..|names| - 1]) + (if DirectionKey(last).Some? then [DirectionKey(last).value] else [])
  }

  /** Arrows distributes over concatenation: each part contributes its own keys, in order. */
  lemma {:induction false} ArrowsAppend(a: seq<string>, b: seq<string>)
    ensures Arrows(a + b) == Arrows(a) + Arrows(b)
    decreases |b|
  {
    if b != [] {
      var front := b[..|b| - 1];
      assert (a + b)[..|a + b| - 1] == a + front;
      assert (a + b)[|a + b| - 1] == b[|b| - 1];
      ArrowsAppend(a, front);
    } else {
      assert a + b == a;
    }
  }

  /** A single name gives its arrow key when it is a direction, and nothing otherwise. */
  lemma ArrowsOfName(n: string)
    ensures Arrows([n]) == if DirectionKey(n).Some? then [DirectionKey(n).value] else []
  {
    assert [n][..0] == [];
  }

  /** The press/release pairs the loop emits for a list of names (sleeps left out). */
  function Taps(names: seq<string>): (r: seq<Event>)
    ensures |r| == 2 * |Arrows(names)|
  {
    if names == [] then []
    else
      var last := names[|names| - 1];
      Taps(names[..|names| - 1]) +
        (match DirectionKey(last) case Some(k) => [Press(k), Release(k)] case None => [])
  }

  /** The taps are exactly one press then one release of each recognised key, in order. */
  lemma {:induction false} TapsArePairs(names: seq<string>)
    ensures |Taps(names)| == 2 * |Arrows(names)|
    ensures forall m :: 0 <= m < |Arrows(names)| ==>
              Taps(names)[2 * m] == Press(Arrows(names)[m]) && Taps(names)[2 * m + 1] == Release(Arrows(names)[m])
    decreases |names|
  {
    if names != [] {
      TapsArePairs(names[..|names| - 1]);
    }
  }

  /** Ctrl is never pressed or released between the two ends. */
  lemma TapsAvoidCtrl(names: seq<string>)
    ensures forall i :: 0 <= i < |Taps(names)| ==> Taps(names)[i].input != Ctrl
  {
    TapsArePairs(names);
    var t, a := Taps(names), Arrows(names);
    forall i | 0 <= i < |t|
      ensures t[i].input != Ctrl
    {
      var m := i / 2;
      assert i == 2 * m || i == 2 * m + 1;
      assert IsArrow(a[m]);
    }
  }

  /**
    How many names the loop gets through: in test mode all of them; otherwise it stops before
    the first step at which the running flag reads false. `running[0]` is the flag as read on
    entry and `running[i + 1]` as read before step i.
  */
  function StepsRun(sequence: seq<string>, testMode: bool, running: seq<bool>): (n: nat)
    requires |running| == |sequence| + 1
    ensures n <= |sequence|
    ensures forall j :: 1 <= j <= n ==> testMode || running[j]
    ensures n < |sequence| ==> !testMode && !running[n + 1]
  {
    StepsFrom(sequence, testMode, running, 0)
  }

  /** The steps the loop gets through once it has reached step k. */
  function StepsFrom(sequence: seq<string>, testMode: bool, running: seq<bool>, k: nat): (n: nat)
    requires |running| == |sequence| + 1 && k <= |sequence|
    decreases |sequence| - k
    ensures k <= n <= |sequence|
    ensures forall j :: k < j <= n ==> testMode || running[j]
    ensures n < |sequence| ==> !testMode && !running[n + 1]
  {
    if k == |sequence| || (!testMode && !running[k + 1]) then k
    else StepsFrom(sequence, testMode, running, k + 1)
  }

  /**
    The events one playback emits: nothing at all when it is not a test and the system is not
    running; otherwise Ctrl held around the taps of the steps that ran, released on every path.
  */
  function PlaybackTrace(sequence: seq<string>, testMode: bool, running: seq<bool>): (r: seq<Event>)
    requires |running| == |sequence| + 1
    ensures r == [] <==> !testMode && !running[0]
    ensures r != [] ==> r[0] == Press(Ctrl) && r[|r| - 1] == Release(Ctrl)
  {
    if !testMode && !running[0] then []
    else [Press(Ctrl)] + Taps(sequence[..StepsRun(sequence, testMode, running)]) + [Release(Ctrl)]
  }

  /** `run_macro_sequence(sequence, test_mode)` with the observed values of the running flag. */
  method RunMacroSequence(sequence: seq<string>, testMode: bool, running: seq<bool>) returns (trace: seq<Event>)
    requires |running| == |sequence| + 1
    ensures trace == PlaybackTrace(sequence, testMode, running)
  {
    if !testMode && !running[0] {
      return [];
    }
    trace := [Press(Ctrl)];
    var i := 0;
    while i < |sequence|
      invariant 0 <= i <= |sequence|
      invariant trace == [Press(Ctrl)] + Taps(sequence[..i])
      invariant forall j :: 1 <= j <= i ==> testMode || running[j]
    {
      if !testMode && !running[i + 1] {
        break;
      }
      var key := DirectionKey(sequence[i]);
      if key.Some? {
        trace := trace + [Press(key.value), Release(key.value)];
      }
      assert sequence[..i + 1][..i] == sequence[..i];
      i := i + 1;
    }
    trace := trace + [Release(Ctrl)];
    assert i == StepsRun(sequence, testMode, running);
  }

  /** The shape of every playback trace. */
  lemma PlaybackShape(sequence: seq<string>, testMode: bool, running: seq<bool>)
    requires |running| == |sequence| + 1
    ensures var trace := PlaybackTrace(sequence, testMode, running);
      && (trace == [] <==> !testMode && !running[0])
      && (trace != [] ==> trace[0] == Press(Ctrl) && trace[|trace| - 1] == Release(Ctrl))
      && (forall i :: 0 < i < |trace| - 1 ==> trace[i].input != Ctrl)
      && (trace != [] ==> |trace| == 2 + 2 * |Arrows(sequence[..StepsRun(sequence, testMode, running)])|)
  {
    var n := StepsRun(sequence, testMode, running);
    TapsAvoidCtrl(sequence[..n]);
    TapsArePairs(sequence[..n]);
    var trace := PlaybackTrace(sequence, testMode, running);
    if trace != [] {
      forall i | 0 < i < |trace| - 1
        ensures trace[i].input != Ctrl
      {
        assert trace[i] == Taps(sequence[..n])[i - 1];
      }
    }
  }

  /** A test playback plays every step, whatever the running flag. */
  lemma TestPlaysEverything(sequence: seq<string>, running: seq<bool>)
    requires |running| == |sequence| + 1
    ensures PlaybackTrace(sequence, true, running) == [Press(Ctrl)] + Taps(sequence) + [Release(Ctrl)]
  {
    assert sequence[..|sequence|] == sequence;
  }

  /** Stopping the system before step k cuts the trace after the taps of the first k names. */
  lemma InterruptedPlayback(sequence: seq<string>, running: seq<bool>, k: nat)
    requires |running| == |sequence| + 1 && running[0] && k < |sequence|
    requires !running[k + 1] && forall j :: 1 <= j <= k ==> running[j]
    ensures PlaybackTrace(sequence, false, running) == [Press(Ctrl)] + Taps(sequence[..k]) + [Release(Ctrl)]
  {
    assert StepsRun(sequence, false, running) == k;
  }

  /** A two-step sequence ["up", "down"] played while running. */
  lemma UpDownExample()
    ensures PlaybackTrace(["up", "down"], false, [true, true, true]) ==
      [Press(Ctrl), Press(ArrowUp), Release(ArrowUp), Press(ArrowDown), Release(ArrowDown), Release(Ctrl)]
  {
    var s: seq<string> := ["up", "down"];
    assert StepsRun(s, false, [true, true, true]) == 2;
    assert s[..2] == s;
    assert s[..1] == ["up"];
    assert Taps(s[..1]) == [Press(ArrowUp), Release(ArrowUp)];
  }
}
