/**
  Range validation of the two tunables typed into entry fields: the Arc Thrower hold delay
  (hellmacro.py:812-824) and the Railgun auto-release timeout (hellmacro.py:826-837). The
  entry text is parsed by Python's `float`; here the parse arrives as an `Option<real>`.
*/
module Tunables {
  import opened Base

  /** Why an update was refused: `float` raised, or the value is out of range. */
  datatype Rejection = NotANumber | OutOfRange

  const DefaultRailgunTimeout: real := 2.95
  const DefaultArcThrowerDelay: real := 1.05
  const DefaultMacroDelay: real := 0.05

  predicate ArcThrowerDelayInRange(d: real) { 0.15 < d <= 10.0 }

  predicate RailgunTimeoutInRange(t: real) { 0.0 < t <= 10.0 }

  /** Accepts a delay d exactly when 0.15 < d <= 10. */
  function CheckArcThrowerDelay(entry: Option<real>): (r: Result<real, Rejection>)
    ensures r.Ok? <==> entry.Some? && 0.15 < entry.value <= 10.0
    ensures r.Ok? ==> r.value == entry.value
    ensures r == Err(NotANumber) <==> entry.None?
  {
    match entry
    case None => Err(NotANumber)
    case Some(d) => if d <= 0.15 || d > 10.0 then Err(OutOfRange) else Ok(d)
  }

  /** Accepts a timeout t exactly when 0 < t <= 10. */
  function CheckRailgunTimeout(entry: Option<real>): (r: Result<real, Rejection>)
    ensures r.Ok? <==> entry.Some? && 0.0 < entry.value <= 10.0
    ensures r.Ok? ==> r.value == entry.value
    ensures r == Err(NotANumber) <==> entry.None?
  {
    match entry
    case None => Err(NotANumber)
    case Some(t) => if t <= 0.0 || t > 10.0 then Err(OutOfRange) else Ok(t)
  }

  /** The value kept after an update: the accepted one, or the previous one. */
  function Updated(previous: real, r: Result<real, Rejection>): (v: real)
    ensures r.Err? ==> v == previous
    ensures r.Ok? ==> v == r.value
  {
    if r.Ok? then r.value else previous
  }

  /** An update never takes the delay out of range, and a refused one keeps it. */
  lemma ArcThrowerDelayStaysInRange(previous: real, entry: Option<real>)
    requires ArcThrowerDelayInRange(previous)
    ensures ArcThrowerDelayInRange(Updated(previous, CheckArcThrowerDelay(entry)))
    ensures CheckArcThrowerDelay(entry).Err? ==> Updated(previous, CheckArcThrowerDelay(entry)) == previous
  {
  }

  /** An update never takes the timeout out of range, and a refused one keeps it. */
  lemma RailgunTimeoutStaysInRange(previous: real, entry: Option<real>)
    requires RailgunTimeoutInRange(previous)
    ensures RailgunTimeoutInRange(Updated(previous, CheckRailgunTimeout(entry)))
    ensures CheckRailgunTimeout(entry).Err? ==> Updated(previous, CheckRailgunTimeout(entry)) == previous
  {
  }

  /** A delay of 0.1 s is below the floor and is refused. */
  lemma ShortDelayRefused()
    ensures CheckArcThrowerDelay(Some(0.1)) == Err(OutOfRange)
    ensures CheckArcThrowerDelay(Some(0.15)) == Err(OutOfRange)
  {
  }
}
