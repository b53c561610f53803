/** The scene's mutable state and the two places that change it: one
    iteration of the render loop, and the key callback that runs while the
    loop polls for events. */
module Scene {
  import opened Motion
  import opened Controls
  import opened Lights
  import opened Bloom

  /** The camera is never left below this height. */
  const CameraFloor: real := 1.5
  /** Exposure handed to the tone-mapping composite. */
  const Exposure: real := 0.5

  /** What the host supplies to one iteration of the render loop: the clock
      reading, whether UP and DOWN are held, the camera height after the
      keyboard moved the camera, the value of car 4's sideways sway
      (sin(1.2 t) / 2), and the key events delivered when the loop polls. */
  datatype FrameInput = FrameInput(
    time: real, upHeld: bool, downHeld: bool, cameraY: real, sway: real,
    events: seq<KeyEvent>)

  /** The textures and settings the final tone-mapping pass is given. */
  datatype Composite = Composite(scene: Texture, bloom: Texture, bloomEnabled: bool, exposure: real)

  /** The camera height after the floor clamp of the frame. */
  function ClampedHeight(y: real): (r: real)
    ensures r >= CameraFloor
    ensures y >= CameraFloor ==> r == y
    ensures y < CameraFloor ==> r == CameraFloor
  {
    if y < CameraFloor then CameraFloor else y
  }

  /** Everything one iteration of the render loop reads and writes. */
  datatype World = World(
    lastFrame: real, deltaTime: real, speeds: Speeds, toggles: Toggles,
    cameraY: real, headlightLeft: Headlight, headlightRight: Headlight,
    cars: seq<Car>, car4Z: real, belts: seq<real>)

  /** Speeds within their clamps, four cars turned at their bounds, every
      conveyor below its threshold. */
  ghost predicate WorldValid(w: World)
  {
    InRange(w.speeds) && CarsTurnedAtBounds(w.cars) && BeltsBelowThreshold(w.belts)
  }

  /** The first part of a frame on the whole state: the clock, the speed
      keys, the camera floor and the headlight colours. */
  ghost function PrepareStep(w: World, input: FrameInput): (r: World)
    ensures InRange(w.speeds) ==> InRange(r.speeds)
    ensures r.cameraY >= CameraFloor
    ensures r.toggles == w.toggles && r.cars == w.cars && r.car4Z == w.car4Z && r.belts == w.belts
  {
    var t := w.toggles;
    w.(lastFrame := input.time, deltaTime := input.time - w.lastFrame,
       speeds := SpeedKeys(w.speeds, input.upHeld, input.downHeld),
       cameraY := ClampedHeight(input.cameraY),
       headlightLeft := HeadlightFor(t.highBeam, t.leftSignal, input.time),
       headlightRight := HeadlightFor(t.highBeam, t.rightSignal, input.time))
  }

  /** The second part of a frame on the whole state: with motion on, the
      cars step and car 4 sways; the conveyors step either way. */
  ghost function AnimateStep(w: World, sway: real): (r: World)
    requires CarsTurnedAtBounds(w.cars) && BeltsBelowThreshold(w.belts)
    ensures CarsTurnedAtBounds(r.cars) && BeltsBelowThreshold(r.belts)
    ensures !w.toggles.moving ==> r == w
  {
    var moving := w.toggles.moving;
    if !moving then
      BeltsFrozen(w.belts, w.speeds.road, w.speeds.buildings, w.deltaTime);
      w.(belts := BeltsStep(w.belts, false, w.speeds.road, w.speeds.buildings, w.deltaTime))
    else
      w.(cars := CarsStep(w.cars, w.deltaTime), car4Z := sway,
         belts := BeltsStep(w.belts, true, w.speeds.road, w.speeds.buildings, w.deltaTime))
  }

  /** One frame on the whole state, up to the event poll; the flags are
      kept. */
  ghost function FrameOnly(w: World, input: FrameInput): (r: World)
    requires WorldValid(w)
    ensures WorldValid(r) && r.toggles == w.toggles
  {
    AnimateStep(PrepareStep(w, input), input.sway)
  }

  /** One iteration of the render loop on the whole state: the frame, then
      the key events polled at its end. */
  ghost function FrameStep(w: World, input: FrameInput): (r: World)
    requires WorldValid(w)
    ensures WorldValid(r)
  {
    var f := FrameOnly(w, input);
    f.(toggles := ApplyKeys(f.toggles, input.events))
  }

  /** The state after a run of frames, one iteration per frame, in order. */
  ghost function Run(w: World, frames: seq<FrameInput>): (r: World)
    requires WorldValid(w)
    ensures WorldValid(r)
    decreases |frames|
  {
    if frames == [] then w
    else FrameStep(Run(w, frames[..|frames| - 1]), frames[|frames| - 1])
  }

  /** No key event of any frame is a press of M. */
  ghost predicate NoMotionToggle(frames: seq<FrameInput>)
  {
    forall i, j :: 0 <= i < |frames| && 0 <= j < |frames[i].events| ==> !TogglesMotion(frames[i].events[j])
  }

  /** After a non-empty run the clock holds the last frame's reading and the
      camera is at or above its floor. */
  lemma RunEnds(w: World, frames: seq<FrameInput>)
    requires WorldValid(w) && frames != []
    ensures Run(w, frames).lastFrame == frames[|frames| - 1].time
    ensures Run(w, frames).cameraY >= CameraFloor
  {
  }

  /** A scene that starts paused and gets no press of M stays paused, and no
      car and no conveyor moves, however many frames pass. */
  lemma {:induction false} RunFrozen(w: World, frames: seq<FrameInput>)
    requires WorldValid(w) && !w.toggles.moving && NoMotionToggle(frames)
    ensures var r := Run(w, frames);
      !r.toggles.moving && r.cars == w.cars && r.car4Z == w.car4Z && r.belts == w.belts
    decreases |frames|
  {
    if frames != [] {
      var n := |frames| - 1;
      var init, last := frames[..n], frames[n];
      assert NoMotionToggle(init) by {
        forall i, j | 0 <= i < |init| && 0 <= j < |init[i].events|
          ensures !TogglesMotion(init[i].events[j])
        {
          assert init[i] == frames[i];
        }
      }
      RunFrozen(w, init);
      var v := Run(w, init);
      forall j | 0 <= j < |last.events|
        ensures !TogglesMotion(last.events[j])
      {
      }
      ApplyKeysKeepsMotion(v.toggles, last.events);
      var speeds := SpeedKeys(v.speeds, last.upHeld, last.downHeld);
      BeltsFrozen(v.belts, speeds.road, speeds.buildings, last.time - v.lastFrame);
    }
  }

  /** One car's block of the frame: move by the flag, then check the lower
      guard and then the upper one. */
  method StepCar(o: Oscillator, x: real, toLower: bool, dt: real) returns (x': real, toLower': bool)
    ensures Car(x', toLower') == OscillatorStep(o, Car(x, toLower), dt)
  {
    x', toLower' := x, toLower;
    if toLower' {
      x' := x' - Forward * dt;
    }
    if !toLower' {
      x' := x' + Backward * dt;
    }
    if x' <= o.lower {
      toLower' := false;
    }
    if x' >= o.upper {
      toLower' := true;
    }
  }

  /** One conveyor's block of the frame: advance while moving, then snap back
      at the threshold. */
  method StepBelt(c: Conveyor, x: real, moving: bool, v: real, dt: real) returns (x': real)
    ensures x' == ConveyorStep(c, x, moving, v, dt)
  {
    x' := x;
    if moving {
      x' := x' + v * dt;
    }
    if x' >= c.threshold {
      x' := c.reset;
    }
  }

  class SceneState {
    // scene clock
    var lastFrame: real
    var deltaTime: real
    // conveyor speeds
    var speed: real
    var buildingSpeed: real
    // flags flipped by the key callback
    var toggles: Toggles
    // camera height
    var cameraY: real
    // headlights of car 3 (left, right)
    var headlightLeft: Headlight
    var headlightRight: Headlight
    // the four cars (x coordinate and direction flag), and car 4's sway
    var cars: seq<Car>
    var car4Z: real
    // conveyor positions: road, trees, buildings, poles, lamps, the right and
    // left grass rows, the two terrain tiles
    var belts: seq<real>

    ghost function CurrentSpeeds(): Speeds
      reads this`speed, this`buildingSpeed
    {
      Speeds(speed, buildingSpeed)
    }

    /** The whole state as a value. */
    ghost function State(): World
      reads this
    {
      World(lastFrame, deltaTime, CurrentSpeeds(), toggles, cameraY,
        headlightLeft, headlightRight, cars, car4Z, belts)
    }

    /** Both speeds within their clamps, each of the four cars heading away
      from a bound it has reached, and every conveyor below its threshold. */
    ghost predicate Valid()
      reads this`speed, this`buildingSpeed, this`cars, this`belts
    {
      InRange(CurrentSpeeds()) && CarsTurnedAtBounds(cars) && BeltsBelowThreshold(belts)
    }

    /** The state at program start. */
    constructor ()
      ensures Valid()
      ensures lastFrame == 0.0 && deltaTime == 0.0 && cameraY == 0.0
      ensures CurrentSpeeds() == Speeds(InitialSpeed, InitialBuildingSpeed)
      ensures toggles == TogglesAtStart
      ensures headlightLeft == HeadlightAtStart && headlightRight == HeadlightAtStart
      ensures cars == CarsAtStart && car4Z == 0.72
      ensures belts == BeltsAtStart
    {
      lastFrame, deltaTime := 0.0, 0.0;
      speed, buildingSpeed := InitialSpeed, InitialBuildingSpeed;
      toggles := TogglesAtStart;
      cameraY := 0.0;
      headlightLeft, headlightRight := HeadlightAtStart, HeadlightAtStart;
      cars := CarsAtStart;
      car4Z := 0.72;
      belts := BeltsAtStart;
      BeltsStartBelowThreshold();
      CarsStartInside();
    }

    /** Reads the clock: the delta is the time since the previous frame. */
    method Tick(now: real)
      modifies this`lastFrame, this`deltaTime
      ensures deltaTime == now - old(lastFrame) && lastFrame == now
    {
      deltaTime := now - lastFrame;
      lastFrame := now;
    }

    /** The speed keys of the input step. */
    method ProcessSpeedKeys(up: bool, down: bool)
      modifies this`speed, this`buildingSpeed
      ensures CurrentSpeeds() == SpeedKeys(old(CurrentSpeeds()), up, down)
    {
      if up {
        speed := speed + SpeedStep;
        buildingSpeed := buildingSpeed + SpeedStep;
        if speed >= MaxSpeed {
          speed := MaxSpeed;
        }
        if buildingSpeed >= MaxBuildingSpeed {
          buildingSpeed := MaxBuildingSpeed;
        }
      }
      if down {
        speed := speed - SpeedStep;
        buildingSpeed := buildingSpeed - SpeedStep;
        if speed <= MinSpeed {
          speed := MinSpeed;
        }
        if buildingSpeed <= MinBuildingSpeed {
          buildingSpeed := MinBuildingSpeed;
        }
      }
    }

    /** Lifts the camera back to the floor height when it went below it. */
    method ClampCamera()
      modifies this`cameraY
      ensures cameraY >= CameraFloor
      ensures old(cameraY) >= CameraFloor ==> cameraY == old(cameraY)
      ensures old(cameraY) < CameraFloor ==> cameraY == CameraFloor
    {
      if cameraY < CameraFloor {
        cameraY := CameraFloor;
      }
    }

    /** Sets the colours of both headlights from the high beam, the turn
      signals and the whole seconds of the clock. */
    method UpdateHeadlights(now: real)
      modifies this`headlightLeft, this`headlightRight
      ensures headlightLeft == HeadlightFor(toggles.highBeam, toggles.leftSignal, now)
      ensures headlightRight == HeadlightFor(toggles.highBeam, toggles.rightSignal, now)
    {
      if toggles.highBeam {
        headlightLeft := headlightLeft.(ambient := HighBeamAmbient);
        headlightRight := headlightRight.(ambient := HighBeamAmbient);
      } else {
        headlightLeft := headlightLeft.(ambient := LowBeamAmbient);
        headlightRight := headlightRight.(ambient := LowBeamAmbient);
      }
      CRemainderParity(TruncateToInt(now));
      if toggles.leftSignal {
        if CRemainder(TruncateToInt(now), 2) != 0 {
          headlightLeft := headlightLeft.(diffuse := SignalAmber, specular := SignalAmber);
        } else {
          headlightLeft := headlightLeft.(diffuse := PlainDiffuse, specular := PlainSpecular);
        }
      } else {
        headlightLeft := headlightLeft.(diffuse := PlainDiffuse, specular := PlainSpecular);
      }
      if toggles.rightSignal {
        if CRemainder(TruncateToInt(now), 2) != 0 {
          headlightRight := headlightRight.(diffuse := SignalAmber, specular := SignalAmber);
        } else {
          headlightRight := headlightRight.(diffuse := PlainDiffuse, specular := PlainSpecular);
        }
      } else {
        headlightRight := headlightRight.(diffuse := PlainDiffuse, specular := PlainSpecular);
      }
    }

    /** Moves the four cars while motion is on; otherwise leaves them. */
    method MoveCars(sway: real)
      requires |cars| == |CarRanges|
      modifies this`cars, this`car4Z
      ensures toggles.moving ==> cars == CarsStep(old(cars), deltaTime) && car4Z == sway
      ensures !toggles.moving ==> cars == old(cars) && car4Z == old(car4Z)
    {
      if toggles.moving {
        var x1, toLower1 := StepCar(Car1Range, cars[0].x, cars[0].toLower, deltaTime);
        var x2, toLower2 := StepCar(Car2Range, cars[1].x, cars[1].toLower, deltaTime);
        car4Z := sway;
        var x3, toLower3 := StepCar(Car3Range, cars[2].x, cars[2].toLower, deltaTime);
        var x4, toLower4 := StepCar(Car4Range, cars[3].x, cars[3].toLower, deltaTime);
        cars := [Car(x1, toLower1), Car(x2, toLower2), Car(x3, toLower3), Car(x4, toLower4)];
      }
    }

    /** Advances every conveyor while motion is on, then snaps back each one
      that reached its threshold, motion or not. */
    method MoveBelts()
      requires |belts| == |Belts|
      modifies this`belts
      ensures belts == BeltsStep(old(belts), toggles.moving, speed, buildingSpeed, deltaTime)
    {
      var road := StepBelt(Road, belts[0], toggles.moving, speed, deltaTime);
      var trees := StepBelt(Trees, belts[1], toggles.moving, speed, deltaTime);
      var buildings := StepBelt(Buildings, belts[2], toggles.moving, buildingSpeed, deltaTime);
      var poles := StepBelt(Poles, belts[3], toggles.moving, speed, deltaTime);
      var lamps := StepBelt(Lamps, belts[4], toggles.moving, speed, deltaTime);
      var grassRight := StepBelt(Grass, belts[5], toggles.moving, speed, deltaTime);
      var grassLeft := StepBelt(Grass, belts[6], toggles.moving, speed, deltaTime);
      var terrain := StepBelt(Terrain, belts[7], toggles.moving, speed, deltaTime);
      var terrain1 := StepBelt(Terrain, belts[8], toggles.moving, speed, deltaTime);
      belts := [road, trees, buildings, poles, lamps, grassRight, grassLeft, terrain, terrain1];
    }

    /** The first half of a frame: the clock, the speed keys, the camera
      floor and the headlight colours. */
    method Prepare(input: FrameInput)
      modifies this`lastFrame, this`deltaTime, this`speed, this`buildingSpeed
      modifies this`cameraY, this`headlightLeft, this`headlightRight
      ensures State() == PrepareStep(old(State()), input)
    {
      Tick(input.time);
      ProcessSpeedKeys(input.upHeld, input.downHeld);
      cameraY := input.cameraY;
      ClampCamera();
      UpdateHeadlights(input.time);
    }

    /** The second half of a frame: the cars and the conveyors. */
    method Animate(sway: real)
      requires CarsTurnedAtBounds(cars) && BeltsBelowThreshold(belts)
      modifies this`cars, this`car4Z, this`belts
      ensures State() == AnimateStep(old(State()), sway)
    {
      ghost var w := State();
      MoveCars(sway);
      MoveBelts();
      if toggles.moving {
        assert State() == w.(cars := CarsStep(w.cars, w.deltaTime), car4Z := sway,
          belts := BeltsStep(w.belts, true, w.speeds.road, w.speeds.buildings, w.deltaTime));
      } else {
        assert State() == w.(belts := BeltsStep(w.belts, false, w.speeds.road, w.speeds.buildings, w.deltaTime));
      }
    }

    /** One iteration of the render loop, up to the event poll. The flags
      flipped by the keys are not touched. */
    method Frame(input: FrameInput) returns (composite: Composite)
      requires Valid()
      modifies this`lastFrame, this`deltaTime, this`speed, this`buildingSpeed
      modifies this`cameraY, this`headlightLeft, this`headlightRight
      modifies this`cars, this`car4Z, this`belts
      ensures Valid()
      ensures State() == FrameOnly(old(State()), input)
      ensures composite == Composite(SceneColour(0), PingPong(1), toggles.bloom, Exposure)
    {
      Prepare(input);
      Animate(input.sway);
      var passes, bloomInput := BlurSchedule(BlurPassCount);
      composite := Composite(SceneColour(0), bloomInput, toggles.bloom, Exposure);
    }

    /** The key callback: a press of B, LEFT, RIGHT, M, Q or F1 flips its
      flag; a press of H flips the toggles.bloom flag three times over. */
    method KeyCallback(key: int, action: int)
      modifies this`toggles
      ensures toggles == ApplyKey(old(toggles), key, action)
    {
      if key == KeyB && action == Press {
        toggles := toggles.(highBeam := !toggles.highBeam);
      }
      if key == KeyLeft && action == Press {
        toggles := toggles.(leftSignal := !toggles.leftSignal);
      }
      if key == KeyRight && action == Press {
        toggles := toggles.(rightSignal := !toggles.rightSignal);
      }
      if key == KeyM && action == Press {
        toggles := toggles.(moving := !toggles.moving);
      }
      if key == KeyQ && action == Press {
        toggles := toggles.(skyAlternate := !toggles.skyAlternate);
      }
      if key == KeyH && action == Press {
        toggles := toggles.(bloom := !toggles.bloom);
      }
      if key == KeyH && action == Press {
        toggles := toggles.(bloom := !toggles.bloom);
      }
      if key == KeyH && action == Press {
        toggles := toggles.(bloom := !toggles.bloom);
      }
      if key == KeyF1 && action == Press {
        toggles := toggles.(gui := !toggles.gui);
      }
    }

    /** The event poll at the end of a frame: the key callback runs once per
      event, in order. */
    method PollEvents(events: seq<KeyEvent>)
      modifies this`toggles
      ensures toggles == ApplyKeys(old(toggles), events)
      ensures State() == old(State()).(toggles := ApplyKeys(old(toggles), events))
      ensures (forall j :: 0 <= j < |events| ==> !TogglesMotion(events[j])) ==> toggles.moving == old(toggles.moving)
    {
      ghost var before := toggles;
      var j := 0;
      while j < |events|
        invariant 0 <= j <= |events|
        invariant ApplyKeys(toggles, events[j..]) == ApplyKeys(old(toggles), events)
      {
        assert events[j..][1..] == events[j + 1..];
        KeyCallback(events[j].key, events[j].action);
        j := j + 1;
      }
      if forall k :: 0 <= k < |events| ==> !TogglesMotion(events[k]) {
        ApplyKeysKeepsMotion(before, events);
      }
    }

    /** One pass of the render loop: the frame, then the key events polled at
      its end. */
    method FrameAndPoll(input: FrameInput)
      requires Valid()
      modifies this
      ensures Valid()
      ensures State() == FrameStep(old(State()), input)
    {
      var composite := Frame(input);
      PollEvents(input.events);
    }

    /** The render loop over a run of frames: each frame, then the key events
      polled at its end. */
    method RenderLoop(frames: seq<FrameInput>)
      requires Valid()
      modifies this
      ensures Valid()
      ensures State() == Run(old(State()), frames)
      ensures frames != [] ==> lastFrame == frames[|frames| - 1].time && cameraY >= CameraFloor
      ensures !old(toggles.moving) && NoMotionToggle(frames) ==>
        && !toggles.moving
        && cars == old(cars) && car4Z == old(car4Z)
        && belts == old(belts)
    {
      ghost var start := State();
      var i := 0;
      while i < |frames|
        invariant 0 <= i <= |frames|
        invariant Valid()
        invariant State() == Run(start, frames[..i])
      {
        assert frames[..i + 1][..i] == frames[..i];
        FrameAndPoll(frames[i]);
        i := i + 1;
      }
      assert frames[..|frames|] == frames;
      if frames != [] {
        RunEnds(start, frames);
      }
      if !start.toggles.moving && NoMotionToggle(frames) {
        RunFrozen(start, frames);
      }
    }
  }
}
