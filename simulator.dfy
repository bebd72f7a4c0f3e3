/**
 * The resistance controller of `BushidoSimulator`: the ridden distance,
 * shifted by the seek offset, selects a 20 m segment of the route, and the
 * slope commanded to the trainer follows that segment's slope by at most
 * MAX_SLOPE_CHANGE per distance update.
 */
module Simulator {
  import opened Telemetry
  import opened Connection

  const MAX_SLOPE_CHANGE: real := 1.0

  /** The route is cut into segments of this many metres. */
  const SEGMENT_LENGTH: int := 20

  /** `Math.ceil(distance / 20)`: the segment whose last metre is at or after `distance`. */
  function SegmentIndex(distance: int): (i: int)
    ensures SEGMENT_LENGTH * (i - 1) < distance <= SEGMENT_LENGTH * i
  {
    -((-distance) / SEGMENT_LENGTH)
  }

  /** Every metre belongs to exactly one segment index. */
  lemma SegmentIndexUnique(distance: int, i: int)
    requires SEGMENT_LENGTH * (i - 1) < distance <= SEGMENT_LENGTH * i
    ensures SegmentIndex(distance) == i
  {
  }

  function Min(a: real, b: real): real
  {
    if a <= b then a else b
  }

  function Max(a: real, b: real): real
  {
    if a >= b then a else b
  }

  /**
   * The slope commanded next: the target, clamped to within
   * MAX_SLOPE_CHANGE of the current slope.
   */
  function LimitSlope(target: real, slope: real): (r: real)
    ensures slope - MAX_SLOPE_CHANGE <= r <= slope + MAX_SLOPE_CHANGE
    ensures slope - MAX_SLOPE_CHANGE <= target <= slope + MAX_SLOPE_CHANGE ==> r == target
    ensures target > slope + MAX_SLOPE_CHANGE ==> r == slope + MAX_SLOPE_CHANGE
    ensures target < slope - MAX_SLOPE_CHANGE ==> r == slope - MAX_SLOPE_CHANGE
  {
    Max(Min(target, slope + MAX_SLOPE_CHANGE), slope - MAX_SLOPE_CHANGE)
  }

  /**
   * The limited slope lies between the current slope and the target: it
   * never overshoots, and it is never farther from the target.
   */
  lemma LimitSlopeTowardTarget(target: real, slope: real)
    ensures var r := LimitSlope(target, slope);
      (slope <= target ==> slope <= r <= target) && (target <= slope ==> target <= r <= slope)
  {
  }

  /** The slope after `n` distance updates inside a segment of slope `target`. */
  function Approach(target: real, slope: real, n: nat): real
    decreases n
  {
    if n == 0 then slope else Approach(target, LimitSlope(target, slope), n - 1)
  }

  /**
   * Riding on inside one segment, the commanded slope reaches the segment's
   * slope after as many updates as the difference spans MAX_SLOPE_CHANGE
   * steps, and stays there.
   */
  lemma {:induction false} ApproachReaches(target: real, slope: real, n: nat)
    requires target - slope <= n as real * MAX_SLOPE_CHANGE
    requires slope - target <= n as real * MAX_SLOPE_CHANGE
    ensures Approach(target, slope, n) == target
    decreases n
  {
    if n > 0 {
      var next := LimitSlope(target, slope);
      assert target - next <= (n - 1) as real * MAX_SLOPE_CHANGE;
      assert next - target <= (n - 1) as real * MAX_SLOPE_CHANGE;
      ApproachReaches(target, next, n - 1);
    }
  }

  /**
   * The slope written after a distance update at `corrected` metres: the
   * limited slope of the segment at that index, or the current slope when
   * the index is outside the route.
   */
  function NextSlope(segments: seq<real>, slope: real, corrected: int): (r: real)
    ensures slope - MAX_SLOPE_CHANGE <= r <= slope + MAX_SLOPE_CHANGE
    ensures !(0 <= SegmentIndex(corrected) < |segments|) ==> r == slope
  {
    var i := SegmentIndex(corrected);
    if 0 <= i < |segments| then LimitSlope(segments[i], slope) else slope
  }

  /** Inside the route, a segment slope within MAX_SLOPE_CHANGE of the current one is taken exactly. */
  lemma NextSlopeTakesNearTarget(segments: seq<real>, slope: real, corrected: int)
    requires 0 <= SegmentIndex(corrected) < |segments|
    requires -MAX_SLOPE_CHANGE <= segments[SegmentIndex(corrected)] - slope <= MAX_SLOPE_CHANGE
    ensures NextSlope(segments, slope, corrected) == segments[SegmentIndex(corrected)]
  {
  }

  /**
   * The connection's record after the controller steers at `corrected`
   * metres: only the slope changes, by at most MAX_SLOPE_CHANGE, and not at
   * all outside the route.
   */
  function Steer(data: BushidoData, segments: seq<real>, corrected: int): (d: BushidoData)
    ensures d == data.(slope := d.slope)
    ensures data.slope - MAX_SLOPE_CHANGE <= d.slope <= data.slope + MAX_SLOPE_CHANGE
    ensures !(0 <= SegmentIndex(corrected) < |segments|) ==> d == data
  {
    data.(slope := NextSlope(segments, data.slope, corrected))
  }

  class BushidoSimulator {
    const connection: BushidoUSB
    /** The slopes of the route's 20 m segments, in order. */
    var segments: seq<real>
    var offset: int
    var progressedDistance: int
    var subprogress: real

    constructor (connection: BushidoUSB, segments: seq<real>)
      ensures this.connection == connection && this.segments == segments
      ensures offset == 0 && progressedDistance == 0 && subprogress == 0.0
    {
      this.connection := connection;
      this.segments := segments;
      offset := 0;
      progressedDistance := 0;
      subprogress := 0.0;
    }

    /**
     * `onDistanceUpdated`: pick the segment ahead of the corrected distance,
     * write the rate-limited slope through `setSlope` when there is one, and
     * restart the progress at the corrected distance.
     */
    method OnDistanceUpdated(distance: int)
      modifies this`progressedDistance, this`subprogress, connection`data
      ensures connection.data == Steer(old(connection.data), segments, distance + offset)
      ensures progressedDistance == distance + offset && subprogress == 0.0
    {
      var slope := connection.GetData().slope;
      var correctedDistance := distance + offset;
      var nextIndex := SegmentIndex(correctedDistance);
      if 0 <= nextIndex < |segments| {
        var nextSlope := Max(Min(segments[nextIndex], slope + MAX_SLOPE_CHANGE), slope - MAX_SLOPE_CHANGE);
        connection.SetSlope(nextSlope);
      }
      subprogress := 0.0;
      progressedDistance := correctedDistance;
    }

    /** `seek`: shift the offset, then steer again from the connection's current distance. */
    method Seek(value: int)
      modifies this`offset, this`progressedDistance, this`subprogress, connection`data
      ensures offset == old(offset) + value
      ensures connection.data == Steer(old(connection.data), segments, old(connection.data.distance) + offset)
      ensures progressedDistance == old(connection.data.distance) + offset && subprogress == 0.0
    {
      offset := offset + value;
      OnDistanceUpdated(connection.GetData().distance);
    }

    /**
     * The callbacks the simulator binds on the connection: a distance event
     * steers the slope; the data, pause and resume callbacks only redraw the
     * page, so they leave the model's state alone.
     */
    method OnEvent(e: Event)
      modifies this`progressedDistance, this`subprogress, connection`data
      ensures e.DistanceUpdated? ==>
        && connection.data == Steer(old(connection.data), segments, e.distance + offset)
        && progressedDistance == e.distance + offset && subprogress == 0.0
      ensures !e.DistanceUpdated? ==>
        && connection.data == old(connection.data)
        && progressedDistance == old(progressedDistance) && subprogress == old(subprogress)
    {
      match e
      case DistanceUpdated(distance) =>
        OnDistanceUpdated(distance);
      case _ =>
    }
  }
}
