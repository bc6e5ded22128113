/**
  How a stylus motion event becomes the samples the brush is called with, in
  both programs: first every entry of the gesture's backlog (the readings
  the device took since the last dispatch), oldest first, then the event's
  own position. A reading with no pressure counts as full pressure 1.
 */
module Samples {

  import opened Optional

  /** GDK 4 numbers its axes IGNORE, X, Y, DELTA_X, DELTA_Y, PRESSURE, ...;
      a backlog entry's pressure is read only when this index is at most the
      device's axis count. */
  const PRESSURE_AXIS: nat := 5

  /** Pressure assumed when the device gives none. */
  const FULL_PRESSURE: real := 1.0

  /** One backlog entry: the values in its X, Y and PRESSURE axis slots. */
  datatype TimeCoord = TimeCoord(x: real, y: real, pressure: real)

  /** One call's worth of brush input. */
  datatype Sample = Sample(x: real, y: real, pressure: real)

  /** Whether a device with `numAxes` axes has its backlog pressure read. */
  predicate HasPressureAxis(numAxes: nat) {
    PRESSURE_AXIS <= numAxes
  }

  /** The sample for one backlog entry. */
  function FromBacklog(numAxes: nat, e: TimeCoord): (s: Sample)
    ensures s.x == e.x && s.y == e.y
    ensures s.pressure == (if HasPressureAxis(numAxes) then e.pressure else FULL_PRESSURE)
  {
    Sample(e.x, e.y, if HasPressureAxis(numAxes) then e.pressure else FULL_PRESSURE)
  }

  /** The samples for a whole backlog, in backlog order. */
  function BacklogSamples(numAxes: nat, backlog: seq<TimeCoord>): (ss: seq<Sample>)
    ensures |ss| == |backlog|
    ensures forall i {:trigger ss[i]} :: 0 <= i < |backlog| ==> ss[i] == FromBacklog(numAxes, backlog[i])
    decreases |backlog|
  {
    if |backlog| == 0 then []
    else [FromBacklog(numAxes, backlog[0])] + BacklogSamples(numAxes, backlog[1..])
  }

  /** All samples of one motion event: the backlog in order, then the event's
      own `(x, y)` with the gesture's current pressure, or full pressure when
      the gesture reports none. */
  function Expand(numAxes: nat, backlog: seq<TimeCoord>, x: real, y: real, pressure: Option<real>)
    : (ss: seq<Sample>)
    ensures |ss| == |backlog| + 1
    ensures forall i :: 0 <= i < |backlog| ==>
      && ss[i].x == backlog[i].x && ss[i].y == backlog[i].y
      && (HasPressureAxis(numAxes) ==> ss[i].pressure == backlog[i].pressure)
      && (!HasPressureAxis(numAxes) ==> ss[i].pressure == FULL_PRESSURE)
    ensures ss[|backlog|].x == x && ss[|backlog|].y == y
    ensures pressure.Some? ==> ss[|backlog|].pressure == pressure.value
    ensures pressure.None? ==> ss[|backlog|].pressure == FULL_PRESSURE
  {
    BacklogSamples(numAxes, backlog) + [Sample(x, y, pressure.GetOr(FULL_PRESSURE))]
  }
}
