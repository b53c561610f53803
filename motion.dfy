/** Scripted actor motion of the highway scene: the back-and-forth car
    oscillator and the one-way looping conveyor that carries the road, the
    roadside props and the terrain past the camera. Positions, speeds and
    times are reals. Actors move along x only, except that car 4 also sways
    along z; that sway is set by the frame, not by these functions. */
module Motion {

  // ---------------------------------------------------------------------------
  // Car oscillator
  // ---------------------------------------------------------------------------

  /** Units per second a car moves toward its lower bound (flag set). */
  const Forward: real := 5.0
  /** Units per second a car moves toward its upper bound (flag clear). */
  const Backward: real := 3.0

  /** The fixed x range one car drives back and forth in. */
  datatype Oscillator = Oscillator(lower: real, upper: real)

  /** A car's x coordinate and its direction flag: set while it heads for
      the lower bound. */
  datatype Car = Car(x: real, toLower: bool)

  const Car1Range := Oscillator(6.0, 17.0)
  const Car2Range := Oscillator(-5.0, 5.0)
  const Car3Range := Oscillator(-17.0, -6.0)
  const Car4Range := Oscillator(-33.0, -18.0)

  /** The four cars, in declaration order. */
  const CarRanges: seq<Oscillator> := [Car1Range, Car2Range, Car3Range, Car4Range]
  const CarsAtStart: seq<Car> :=
    [Car(11.0, false), Car(0.0, true), Car(-11.0, true), Car(-25.0, false)]

  /** One frame of one car: exactly one move, chosen by the flag as it was on
      entry; only after the move are the guards checked, the upper one last.
      The position itself is never clamped. */
  function OscillatorStep(o: Oscillator, c: Car, dt: real): (r: Car)
    ensures o.lower < o.upper ==> TurnedAtBounds(o, r)
  {
    var x := if c.toLower then c.x - Forward * dt else c.x + Backward * dt;
    Car(x, if x >= o.upper then true else if x <= o.lower then false else c.toLower)
  }

  /** The flag agrees with the bound the car has reached: heading up at or
      below the lower bound, heading down at or above the upper one. */
  ghost predicate TurnedAtBounds(o: Oscillator, c: Car)
  {
    && (c.x <= o.lower ==> !c.toLower)
    && (c.x >= o.upper ==> c.toLower)
  }

  /** Four cars, each turned at the bounds of its own range. */
  ghost predicate CarsTurnedAtBounds(cars: seq<Car>)
  {
    |cars| == |CarRanges| &&
    forall i :: 0 <= i < |cars| ==> TurnedAtBounds(CarRanges[i], cars[i])
  }

  /** One frame of all four cars while motion is on. */
  function CarsStep(cars: seq<Car>, dt: real): (r: seq<Car>)
    requires |cars| == |CarRanges|
    ensures CarsTurnedAtBounds(r)
  {
    [OscillatorStep(CarRanges[0], cars[0], dt), OscillatorStep(CarRanges[1], cars[1], dt),
     OscillatorStep(CarRanges[2], cars[2], dt), OscillatorStep(CarRanges[3], cars[3], dt)]
  }

  /** Every car range is a proper interval and every car starts strictly
      inside its own range. */
  lemma CarsStartInside()
    ensures |CarsAtStart| == |CarRanges|
    ensures forall i :: 0 <= i < |CarRanges| ==>
      CarRanges[i].lower < CarsAtStart[i].x < CarRanges[i].upper
    ensures CarsTurnedAtBounds(CarsAtStart)
  {
  }

  /** The move is decided by the flag on entry, and afterwards the flag
      agrees with the guard that fired; strictly inside the range it is kept. */
  lemma OscillatorMoveThenGuards(o: Oscillator, c: Car, dt: real)
    requires o.lower < o.upper
    ensures var r := OscillatorStep(o, c, dt);
      && (c.toLower ==> r.x == c.x - Forward * dt)
      && (!c.toLower ==> r.x == c.x + Backward * dt)
      && (r.x <= o.lower ==> !r.toLower)
      && (r.x >= o.upper ==> r.toLower)
      && (o.lower < r.x < o.upper ==> r.toLower == c.toLower)
  {
  }

  /** A single long frame overshoots the bound and the position stays there:
      car 1 at 16 heading up for one second ends at 19, past its bound 17. */
  lemma OvershootIsNotClamped()
    ensures OscillatorStep(Car1Range, Car(16.0, false), 1.0) == Car(19.0, true)
  {
  }

  /** The states a car can be in when no frame is longer than maxDt: at most
      one frame's travel past either bound, and heading back once past it. */
  ghost predicate InEnvelope(o: Oscillator, c: Car, maxDt: real)
  {
    && o.lower - Forward * maxDt <= c.x <= o.upper + Backward * maxDt
    && TurnedAtBounds(o, c)
  }

  /** Overshoot is bounded by one frame: a step of at most maxDt keeps the
      car in its envelope. */
  lemma OscillatorStaysInEnvelope(o: Oscillator, c: Car, dt: real, maxDt: real)
    requires o.lower < o.upper
    requires 0.0 <= dt <= maxDt
    requires InEnvelope(o, c, maxDt)
    ensures InEnvelope(o, OscillatorStep(o, c, dt), maxDt)
  {
    var r := OscillatorStep(o, c, dt);
    if c.toLower {
      assert Forward * dt <= Forward * maxDt;
      assert r.x >= o.lower - Forward * maxDt;
    } else {
      assert Backward * dt <= Backward * maxDt;
      assert r.x <= o.upper + Backward * maxDt;
    }
  }

  /** A car leaving its lower bound reaches the upper bound after
      (upper - lower) / Backward seconds and turns there; coming back takes
      (upper - lower) / Forward seconds and turns it again. */
  lemma OscillatorRoundTrip(o: Oscillator)
    requires o.lower < o.upper
    ensures var up := OscillatorStep(o, Car(o.lower, false), (o.upper - o.lower) / Backward);
      && up == Car(o.upper, true)
      && OscillatorStep(o, up, (o.upper - o.lower) / Forward) == Car(o.lower, false)
  {
  }

  // ---------------------------------------------------------------------------
  // Loop conveyor
  // ---------------------------------------------------------------------------

  /** A looping group: once its x reaches threshold it snaps back to reset. */
  datatype Conveyor = Conveyor(threshold: real, reset: real)

  const Road := Conveyor(-49.0, -80.0)
  const Trees := Conveyor(-40.0, -80.0)
  const Buildings := Conveyor(-70.0, -140.0)
  const Poles := Conveyor(-48.6, -64.8)
  const Lamps := Conveyor(-60.0, -90.0)
  const Grass := Conveyor(-40.0, -100.0)
  const Terrain := Conveyor(214.0, -214.0)

  /** One frame of a conveyor: advance by v * dt while moving, then (moving or
      not) snap to exactly reset once at or past the threshold. */
  function ConveyorStep(c: Conveyor, x: real, moving: bool, v: real, dt: real): (r: real)
    ensures c.reset < c.threshold ==> r < c.threshold
    ensures r == c.reset || r == (if moving then x + v * dt else x)
    ensures (if moving then x + v * dt else x) < c.threshold ==> r == (if moving then x + v * dt else x)
  {
    var advanced := if moving then x + v * dt else x;
    if advanced >= c.threshold then c.reset else advanced
  }

  /** With motion off a conveyor already below its threshold does not move. */
  lemma ConveyorFrozen(c: Conveyor, x: real, v: real, dt: real)
    requires x < c.threshold
    ensures ConveyorStep(c, x, false, v, dt) == x
  {
  }

  /** With a non-negative speed and frame time a conveyor only moves forward,
      except when it snaps back to exactly its reset value. */
  lemma ConveyorForwardOrReset(c: Conveyor, x: real, v: real, dt: real)
    requires v >= 0.0 && dt >= 0.0
    ensures var r := ConveyorStep(c, x, true, v, dt);
      r >= x || r == c.reset
  {
  }

  /** The road at speed 7 from -80: after 4 seconds it is at -52, and after
      31/7 seconds it reaches -49 and snaps back to exactly -80. */
  lemma RoadScenario()
    ensures ConveyorStep(Road, -80.0, true, 7.0, 4.0) == -52.0
    ensures ConveyorStep(Road, -80.0, true, 7.0, 31.0 / 7.0) == -80.0
  {
  }

  /** Every frame's conveyor groups, in the order the frame updates them:
      road, trees, buildings, poles, lamps, the two grass rows, the two
      terrain tiles. */
  const Belts: seq<Conveyor> := [Road, Trees, Buildings, Poles, Lamps, Grass, Grass, Terrain, Terrain]
  const BeltsAtStart: seq<real> := [-80.0, -80.0, -140.0, -64.8, -90.0, -100.0, -100.0, 0.0, -214.0]
  /** Each group's position is strictly below its own threshold. */
  ghost predicate BeltsBelowThreshold(xs: seq<real>)
  {
    |xs| == |Belts| && forall i :: 0 <= i < |xs| ==> xs[i] < Belts[i].threshold
  }

  /** One frame of all nine conveyor positions; the buildings run at the
      building speed, every other group at the common speed. */
  function BeltsStep(xs: seq<real>, moving: bool, speed: real, buildingSpeed: real, dt: real): (r: seq<real>)
    requires |xs| == |Belts|
    ensures BeltsBelowThreshold(r)
  {
    [ConveyorStep(Road, xs[0], moving, speed, dt),
     ConveyorStep(Trees, xs[1], moving, speed, dt),
     ConveyorStep(Buildings, xs[2], moving, buildingSpeed, dt),
     ConveyorStep(Poles, xs[3], moving, speed, dt),
     ConveyorStep(Lamps, xs[4], moving, speed, dt),
     ConveyorStep(Grass, xs[5], moving, speed, dt),
     ConveyorStep(Grass, xs[6], moving, speed, dt),
     ConveyorStep(Terrain, xs[7], moving, speed, dt),
     ConveyorStep(Terrain, xs[8], moving, speed, dt)]
  }

  /** Every group starts below its threshold. */
  lemma BeltsStartBelowThreshold()
    ensures BeltsBelowThreshold(BeltsAtStart)
  {
  }

  /** With motion off, a frame leaves every conveyor where it was. */
  lemma BeltsFrozen(xs: seq<real>, speed: real, buildingSpeed: real, dt: real)
    requires BeltsBelowThreshold(xs)
    ensures BeltsStep(xs, false, speed, buildingSpeed, dt) == xs
  {
    var r := BeltsStep(xs, false, speed, buildingSpeed, dt);
    forall i | 0 <= i < |xs|
      ensures r[i] == xs[i]
    {
      ConveyorFrozen(Belts[i], xs[i], if i == 2 then buildingSpeed else speed, dt);
    }
  }

  // ---------------------------------------------------------------------------
  // Frame-rate independence
  // ---------------------------------------------------------------------------

  /** The clock time of the last frame of a run, or `last` when there is none. */
  function EndTime(last: real, times: seq<real>): real
  {
    if times == [] then last else times[|times| - 1]
  }

  /** Frame times that never go back, starting no earlier than `last`. */
  ghost predicate Monotone(last: real, times: seq<real>)
    decreases |times|
  {
    times == [] || (last <= times[0] && Monotone(times[0], times[1..]))
  }

  /** A conveyor run at a constant speed over frames stamped `times`, each
      frame's delta being its time minus the previous frame's. */
  function ConveyorRun(c: Conveyor, x: real, v: real, last: real, times: seq<real>): real
    decreases |times|
  {
    if times == [] then x
    else ConveyorRun(c, ConveyorStep(c, x, true, v, times[0] - last), v, times[0], times[1..])
  }

  /** Distance at a non-negative speed grows with time and adds up over
      consecutive intervals. */
  lemma SplitTravel(v: real, last: real, t0: real, end: real)
    requires v >= 0.0 && t0 <= end
    ensures v * (t0 - last) <= v * (end - last)
    ensures v * (t0 - last) + v * (end - t0) == v * (end - last)
  {
    assert v * (end - last) - v * (t0 - last) == v * (end - t0);
  }

  /** A run of monotone frames ends no earlier than it starts. */
  lemma {:induction false} MonotoneEnd(last: real, times: seq<real>)
    requires Monotone(last, times)
    ensures last <= EndTime(last, times)
    decreases |times|
  {
    if times != [] {
      MonotoneEnd(times[0], times[1..]);
      assert EndTime(times[0], times[1..]) == EndTime(last, times);
    }
  }

  /** Until it wraps, a conveyor's travel depends only on the elapsed time, not
      on how that time was split into frames. */
  lemma {:induction false} ConveyorRunTravel(c: Conveyor, x: real, v: real, last: real, times: seq<real>)
    requires v >= 0.0
    requires Monotone(last, times)
    requires x + v * (EndTime(last, times) - last) < c.threshold
    ensures ConveyorRun(c, x, v, last, times) == x + v * (EndTime(last, times) - last)
    decreases |times|
  {
    if times != [] {
      var t0, end := times[0], EndTime(last, times);
      MonotoneEnd(t0, times[1..]);
      assert EndTime(t0, times[1..]) == end;
      SplitTravel(v, last, t0, end);
      var d0, d1 := v * (t0 - last), v * (end - t0);
      var x1 := x + d0;
      assert x1 < c.threshold;
      assert ConveyorStep(c, x, true, v, t0 - last) == x1;
      assert ConveyorRun(c, x, v, last, times) == ConveyorRun(c, x1, v, t0, times[1..]);
      assert x1 + v * (EndTime(t0, times[1..]) - t0) == x1 + d1;
      ConveyorRunTravel(c, x1, v, t0, times[1..]);
    }
  }

  // ---------------------------------------------------------------------------
  // Tiling
  // ---------------------------------------------------------------------------

  /** A tiled group: `count` copies of one mesh drawn `stride` apart from the
      conveyor's position. */
  datatype Tiling = Tiling(belt: Conveyor, stride: real, count: nat)

  const RoadTiles := Tiling(Road, 31.0, 6)
  const TreeTiles := Tiling(Trees, 40.0, 5)
  const BuildingTiles := Tiling(Buildings, 70.0, 4)
  const PoleTiles := Tiling(Poles, 16.2, 10)
  const LampTiles := Tiling(Lamps, 30.0, 7)
  const GrassTiles := Tiling(Grass, 60.0, 3)
  const TiledGroups: seq<Tiling> := [RoadTiles, TreeTiles, BuildingTiles, PoleTiles, LampTiles, GrassTiles]

  /** The x coordinates of a group's copies when its position is x. */
  function TilePositions(x: real, t: Tiling): (r: seq<real>)
  {
    seq(t.count, i requires 0 <= i < t.count => x + t.stride * (i as real))
  }

  /** The wrap distance of the group equals its tile stride. */
  ghost predicate Seamless(t: Tiling)
  {
    t.belt.threshold - t.belt.reset == t.stride
  }

  /** All six tiled groups are tuned so that a wrap moves by exactly one stride. */
  lemma TiledGroupsSeamless()
    ensures forall i :: 0 <= i < |TiledGroups| ==> Seamless(TiledGroups[i])
  {
  }

  /** In a seamless group, copy i at the threshold sits where copy i + 1 sits
      after the snap back to the reset, for every i below count - 1: the snap
      is invisible except that the last copy (index count - 1) disappears and
      a new copy 0 appears one stride behind the old first one. */
  lemma {:induction false} WrapShiftsOneTile(t: Tiling)
    requires Seamless(t) && t.count > 0
    ensures TilePositions(t.belt.threshold, t)[..t.count - 1] == TilePositions(t.belt.reset, t)[1..]
  {
    var before, after := TilePositions(t.belt.threshold, t), TilePositions(t.belt.reset, t);
    forall i | 0 <= i < t.count - 1
      ensures before[i] == after[i + 1]
    {
      calc {
        after[i + 1];
        t.belt.reset + t.stride * ((i + 1) as real);
        t.belt.reset + t.stride + t.stride * (i as real);
        t.belt.threshold + t.stride * (i as real);
        before[i];
      }
    }
  }
}
