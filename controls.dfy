/** Keyboard controls of the scene: the two conveyor speeds stepped by the
    held UP and DOWN keys once per frame, and the flags flipped by key presses
    delivered to the key callback. */
module Controls {

  // ---------------------------------------------------------------------------
  // Speeds
  // ---------------------------------------------------------------------------

  const InitialSpeed: real := 7.0
  const InitialBuildingSpeed: real := 4.5
  /** Change of both speeds per frame while UP or DOWN is held. */
  const SpeedStep: real := 0.5
  const MinSpeed: real := 2.0
  const MaxSpeed: real := 197.0
  const MinBuildingSpeed: real := 2.5
  const MaxBuildingSpeed: real := 194.5

  /** The conveyor speed of the road and props, and that of the buildings. */
  datatype Speeds = Speeds(road: real, buildings: real)

  function Min(a: real, b: real): real { if a <= b then a else b }
  function Max(a: real, b: real): real { if a >= b then a else b }

  ghost predicate InRange(s: Speeds)
  {
    MinSpeed <= s.road <= MaxSpeed && MinBuildingSpeed <= s.buildings <= MaxBuildingSpeed
  }

  /** One frame of the speed keys: UP raises both speeds and caps them at the
      top, then DOWN lowers both and floors them at the bottom. */
  function SpeedKeys(s: Speeds, up: bool, down: bool): (r: Speeds)
    ensures InRange(s) ==> InRange(r) && r.road > 0.0 && r.buildings > 0.0
    ensures !up && !down ==> r == s
  {
    var raised := if up then Speeds(Min(s.road + SpeedStep, MaxSpeed), Min(s.buildings + SpeedStep, MaxBuildingSpeed)) else s;
    if down then Speeds(Max(raised.road - SpeedStep, MinSpeed), Max(raised.buildings - SpeedStep, MinBuildingSpeed))
    else raised
  }

  /** The speeds after the same keys have been held for n frames. */
  function Held(s: Speeds, up: bool, down: bool, n: nat): (r: Speeds)
    ensures InRange(s) ==> InRange(r)
    ensures !up && !down ==> r == s
  {
    if n == 0 then s else SpeedKeys(Held(s, up, down, n - 1), up, down)
  }

  /** The initial speeds lie in range. */
  lemma InitialSpeedsInRange()
    ensures InRange(Speeds(InitialSpeed, InitialBuildingSpeed))
  {
  }

  /** Holding UP for n frames raises both speeds by half a unit per frame
      until each reaches its cap, where it stays. */
  lemma {:induction false} HoldingUp(s: Speeds, n: nat)
    requires InRange(s)
    ensures Held(s, true, false, n) ==
      Speeds(Min(s.road + SpeedStep * (n as real), MaxSpeed),
             Min(s.buildings + SpeedStep * (n as real), MaxBuildingSpeed))
  {
    if n > 0 {
      HoldingUp(s, n - 1);
      assert SpeedStep * (n as real) == SpeedStep * ((n - 1) as real) + SpeedStep;
    }
  }

  /** Holding DOWN for n frames lowers both speeds by half a unit per frame
      until each reaches its floor, where it stays. */
  lemma {:induction false} HoldingDown(s: Speeds, n: nat)
    requires InRange(s)
    ensures Held(s, false, true, n) ==
      Speeds(Max(s.road - SpeedStep * (n as real), MinSpeed),
             Max(s.buildings - SpeedStep * (n as real), MinBuildingSpeed))
  {
    if n > 0 {
      HoldingDown(s, n - 1);
      assert SpeedStep * (n as real) == SpeedStep * ((n - 1) as real) + SpeedStep;
    }
  }

  /** Holding both keys cancels out, except near a cap: UP is clamped first, so
      DOWN then takes the speed to half a unit below the cap. */
  lemma HoldingBoth(s: Speeds)
    requires InRange(s)
    ensures SpeedKeys(s, true, true).road ==
      if s.road >= MaxSpeed - SpeedStep then MaxSpeed - SpeedStep else s.road
    ensures SpeedKeys(s, true, true).buildings ==
      if s.buildings >= MaxBuildingSpeed - SpeedStep then MaxBuildingSpeed - SpeedStep else s.buildings
  {
  }

  // ---------------------------------------------------------------------------
  // Toggle keys
  // ---------------------------------------------------------------------------

  /** GLFW's key action code for a press; releases (0) and repeats (2) flip nothing. */
  const Press: int := 1

  /** GLFW key codes of the bound keys. */
  const KeyB: int := 66
  const KeyH: int := 72
  const KeyM: int := 77
  const KeyQ: int := 81
  const KeyRight: int := 262
  const KeyLeft: int := 263
  const KeyF1: int := 290

  const BoundKeys: set<int> := {KeyB, KeyLeft, KeyRight, KeyM, KeyQ, KeyH, KeyF1}

  /** One key event as the callback receives it. */
  datatype KeyEvent = KeyEvent(key: int, action: int)

  /** The flags the keys flip: high beam (B), left and right turn signals
      (LEFT, RIGHT), motion (M), alternate skybox (Q), bloom (H) and the
      GUI overlay (F1). */
  datatype Toggles = Toggles(
    highBeam: bool, leftSignal: bool, rightSignal: bool, moving: bool,
    skyAlternate: bool, bloom: bool, gui: bool)

  const TogglesAtStart := Toggles(false, false, false, false, false, false, false)

  /** What one key event does to the flags: a press of a bound key flips that
      key's flag once; anything else changes nothing. */
  function ApplyKey(t: Toggles, key: int, action: int): (r: Toggles)
    ensures action != Press || key !in BoundKeys ==> r == t
  {
    if action != Press then t
    else if key == KeyB then t.(highBeam := !t.highBeam)
    else if key == KeyLeft then t.(leftSignal := !t.leftSignal)
    else if key == KeyRight then t.(rightSignal := !t.rightSignal)
    else if key == KeyM then t.(moving := !t.moving)
    else if key == KeyQ then t.(skyAlternate := !t.skyAlternate)
    else if key == KeyH then t.(bloom := !t.bloom)
    else if key == KeyF1 then t.(gui := !t.gui)
    else t
  }

  /** The flags after a sequence of key events, delivered in order. */
  function ApplyKeys(t: Toggles, events: seq<KeyEvent>): (r: Toggles)
    ensures (forall i :: 0 <= i < |events| ==> events[i].action != Press) ==> r == t
    decreases |events|
  {
    if events == [] then t
    else ApplyKeys(ApplyKey(t, events[0].key, events[0].action), events[1..])
  }

  /** Pressing the same key twice restores every flag. */
  lemma ApplyKeyTwice(t: Toggles, key: int, action: int)
    ensures ApplyKey(ApplyKey(t, key, action), key, action) == t
  {
    if action != Press {
    } else if key == KeyB {
    } else if key == KeyLeft {
    } else if key == KeyRight {
    } else if key == KeyM {
    } else if key == KeyQ {
    } else if key == KeyH {
    } else if key == KeyF1 {
    } else {
    }
  }

  /** A key event changes the flags exactly when it is a press of a bound key. */
  lemma ApplyKeyChanges(t: Toggles, key: int, action: int)
    ensures ApplyKey(t, key, action) != t <==> action == Press && key in BoundKeys
  {
  }

  predicate TogglesMotion(e: KeyEvent)
  {
    e.key == KeyM && e.action == Press
  }

  /** Only a press of M changes the motion flag. */
  lemma ApplyKeyMotion(t: Toggles, key: int, action: int)
    ensures ApplyKey(t, key, action).moving != t.moving <==> TogglesMotion(KeyEvent(key, action))
  {
    if action != Press {
    } else if key == KeyB {
    } else if key == KeyLeft {
    } else if key == KeyRight {
    } else if key == KeyM {
    } else if key == KeyQ {
    } else if key == KeyH {
    } else if key == KeyF1 {
    } else {
    }
  }

  /** A run of events without an M press leaves motion as it was. */
  lemma {:induction false} ApplyKeysKeepsMotion(t: Toggles, events: seq<KeyEvent>)
    requires forall i :: 0 <= i < |events| ==> !TogglesMotion(events[i])
    ensures ApplyKeys(t, events).moving == t.moving
    decreases |events|
  {
    if events != [] {
      ApplyKeyMotion(t, events[0].key, events[0].action);
      ApplyKeysKeepsMotion(ApplyKey(t, events[0].key, events[0].action), events[1..]);
    }
  }
}
