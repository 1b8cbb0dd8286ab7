/**
 * The pedestrian-dead-reckoning estimator: pedometer totals move the position forward
 * along the current heading, and device-attitude yaw sets the heading.
 */
module Pdr {
  import opened Wrappers
  import opened Coordinates

  /** The coordinate the estimator starts from when none is given. */
  const DefaultCoordinate := Coordinate(-6.301998041670829, 106.65247636617268)

  /** Metres walked per step. */
  const StepLength: real := 0.75

  /** `Double.pi` as a decimal. */
  const Pi: real := 3.141592653589793

  /** Metres moved by one pedometer event reporting `total` steps after `previous`. */
  function StepAdvance(previous: int, total: int): real {
    if total - previous > 0 then (total - previous) as real * StepLength else 0.0
  }

  /**
   * Metres moved by a run of pedometer events, each event's total becoming the next previous:
   * the growth of `travelled` over successive `OnPedometerUpdate` calls with these totals,
   * since each call adds `StepAdvance` of the stored and the new total.
   */
  function TotalAdvance(previous: int, totals: seq<int>): real
    decreases |totals|
  {
    if totals == [] then 0.0 else StepAdvance(previous, totals[0]) + TotalAdvance(totals[0], totals[1..])
  }

  /** The step count after the run: its last total, or `previous` when there were no events. */
  function LastTotal(previous: int, totals: seq<int>): int {
    if totals == [] then previous else totals[|totals| - 1]
  }

  /** Every reported total is at least the one before it. */
  predicate NonDecreasingFrom(previous: int, totals: seq<int>)
    decreases |totals|
  {
    totals == [] || (previous <= totals[0] && NonDecreasingFrom(totals[0], totals[1..]))
  }

  /**
   * Telescoping: for totals that never go down, the distance moved is the net step gain
   * times the step length, however the steps are split into events.
   */
  lemma {:induction false} Telescoping(previous: int, totals: seq<int>)
    requires NonDecreasingFrom(previous, totals)
    ensures TotalAdvance(previous, totals) == (LastTotal(previous, totals) - previous) as real * StepLength
    decreases |totals|
  {
    if totals != [] {
      Telescoping(totals[0], totals[1..]);
      assert LastTotal(totals[0], totals[1..]) == LastTotal(previous, totals);
    }
  }

  /** From a fresh estimator (previous count 0), the distance is the last total times 0.75 m. */
  lemma DistanceFromStart(totals: seq<int>)
    requires NonDecreasingFrom(0, totals)
    requires totals != []
    ensures TotalAdvance(0, totals) == totals[|totals| - 1] as real * 0.75
  {
    Telescoping(0, totals);
  }

  /**
   * For any totals, even ones that drop (a pedometer restart), the distance moved is never
   * below the net gain and never negative: a drop never moves the position back.
   */
  lemma {:induction false} AdvanceCoversNetGain(previous: int, totals: seq<int>)
    ensures TotalAdvance(previous, totals) >= (LastTotal(previous, totals) - previous) as real * StepLength
    ensures TotalAdvance(previous, totals) >= 0.0
    decreases |totals|
  {
    if totals != [] {
      AdvanceCoversNetGain(totals[0], totals[1..]);
      assert LastTotal(totals[0], totals[1..]) == LastTotal(previous, totals);
    }
  }

  class PdrManager {
    var currentLocation: Coordinate
    var previousStepCount: int
    var stepLength: real
    var heading: real
    /** The displacement along a heading in degrees: the equirectangular step, not modelled. */
    const advance: (Coordinate, real, real) -> Coordinate
    /** The exact distance the position has been advanced by, in metres. */
    ghost var travelled: real

    ghost predicate Valid()
      reads this`stepLength
    {
      stepLength == StepLength
    }

    constructor (initialCoordinate: Coordinate, advance: (Coordinate, real, real) -> Coordinate)
      ensures Valid()
      ensures currentLocation == initialCoordinate && previousStepCount == 0 && heading == 0.0
      ensures this.advance == advance && travelled == 0.0
    {
      currentLocation := initialCoordinate;
      previousStepCount := 0;
      stepLength := StepLength;
      heading := 0.0;
      this.advance := advance;
      travelled := 0.0;
    }

    /** The initialiser called without a coordinate. */
    constructor WithDefaultCoordinate(advance: (Coordinate, real, real) -> Coordinate)
      ensures Valid()
      ensures currentLocation == DefaultCoordinate && previousStepCount == 0 && heading == 0.0
      ensures this.advance == advance && travelled == 0.0
    {
      currentLocation := DefaultCoordinate;
      previousStepCount := 0;
      stepLength := StepLength;
      heading := 0.0;
      this.advance := advance;
      travelled := 0.0;
    }

    /**
     * A pedometer event carrying the total step count since updates started (none when the
     * event has no data). The count is recorded on every event with data; the position
     * moves only when the total went up.
     */
    method OnPedometerUpdate(steps: Option<int>)
      requires Valid()
      modifies this`previousStepCount, this`currentLocation, this`travelled
      ensures Valid()
      ensures steps.None? ==> previousStepCount == old(previousStepCount)
      ensures steps.None? ==> currentLocation == old(currentLocation) && travelled == old(travelled)
      ensures steps.Some? ==> previousStepCount == steps.value
      ensures steps.Some? ==> travelled == old(travelled) + StepAdvance(old(previousStepCount), steps.value)
      ensures steps.Some? && steps.value > old(previousStepCount) ==>
        currentLocation == advance(old(currentLocation), StepAdvance(old(previousStepCount), steps.value), heading)
      ensures steps.Some? && steps.value <= old(previousStepCount) ==> currentLocation == old(currentLocation)
    {
      if steps.None? {
        return;
      }
      var deltaSteps := steps.value - previousStepCount;
      previousStepCount := steps.value;
      if deltaSteps > 0 {
        UpdatePosition(deltaSteps);
      }
    }

    /** A device-motion event: the attitude's yaw (radians) becomes the heading in degrees. */
    method OnDeviceMotion(yaw: Option<real>)
      modifies this`heading
      ensures yaw.Some? ==> heading == yaw.value * 180.0 / Pi
      ensures yaw.None? ==> heading == old(heading)
    {
      if yaw.Some? {
        heading := yaw.value * 180.0 / Pi;
      }
    }

    /** Moves the position `steps` step lengths along the current heading. */
    method UpdatePosition(steps: int)
      requires Valid()
      modifies this`currentLocation, this`travelled
      ensures currentLocation == advance(old(currentLocation), steps as real * StepLength, heading)
      ensures travelled == old(travelled) + steps as real * StepLength
    {
      var distance := steps as real * stepLength;
      currentLocation := advance(currentLocation, distance, heading);
      travelled := travelled + distance;
    }
  }
}
