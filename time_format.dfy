/** Choice of display unit for a duration in seconds (`pretty_time`). Only the
    unit and the scaled value are modelled, not the formatted text. */
module TimeFormat {

  datatype TimeUnit = Secs | Mins | Hrs | Days

  /** Seconds in one of the unit. */
  function UnitSeconds(u: TimeUnit): real
  {
    match u
    case Secs => 1.0
    case Mins => 60.0
    case Hrs => 3600.0
    case Days => 86400.0
  }

  /** Position of a unit in the order secs < mins < hrs < days. */
  function Rank(u: TimeUnit): nat
  {
    match u
    case Secs => 0
    case Mins => 1
    case Hrs => 2
    case Days => 3
  }

  /** The next larger unit. */
  function Larger(u: TimeUnit): TimeUnit
    requires u != Days
  {
    match u
    case Secs => Mins
    case Mins => Hrs
    case Hrs => Days
  }

  /** The unit a duration is shown in and the duration expressed in that unit.
      The unit is the largest one that does not exceed the duration (secs for
      anything under a minute, negative durations included), and the value times
      the unit's size gives back the duration; below days the duration is short of the
      next larger unit. */
  function PrettyTime(secs: real): (r: (TimeUnit, real))
    ensures r.1 * UnitSeconds(r.0) == secs
    ensures r.0 == Secs || UnitSeconds(r.0) <= secs
    ensures forall u :: UnitSeconds(u) <= secs ==> Rank(u) <= Rank(r.0)
    ensures r.0 != Days ==> secs < UnitSeconds(Larger(r.0))
  {
    if secs < 60.0 then (Secs, secs)
    else if secs < 3600.0 then (Mins, secs / 60.0)
    else if secs < 86400.0 then (Hrs, secs / 60.0 / 60.0)
    else (Days, secs / 60.0 / 60.0 / 24.0)
  }

  /** A longer duration is never shown in a smaller unit. */
  lemma PrettyTimeMonotone(a: real, b: real)
    requires a <= b
    ensures Rank(PrettyTime(a).0) <= Rank(PrettyTime(b).0)
  {
  }

  /** At a threshold the higher unit is chosen, so the scaled value is exactly 1. */
  lemma PrettyTimeBoundaries()
    ensures PrettyTime(60.0) == (Mins, 1.0)
    ensures PrettyTime(3600.0) == (Hrs, 1.0)
    ensures PrettyTime(86400.0) == (Days, 1.0)
  {
  }

  /** Representative durations: 30 s, 90 s, 2 h and 2 days. */
  lemma PrettyTimeExamples()
    ensures PrettyTime(30.0) == (Secs, 30.0)
    ensures PrettyTime(90.0) == (Mins, 1.5)
    ensures PrettyTime(7200.0) == (Hrs, 2.0)
    ensures PrettyTime(172800.0) == (Days, 2.0)
  {
  }
}
