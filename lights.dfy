/** Colours of the two headlight spotlights of car 3: the high beam raises
    both ambients, and a turn signal that is on blinks its side's headlight
    amber on every odd whole second of the clock. */
module Lights {

  datatype Vec3 = Vec3(x: real, y: real, z: real)

  /** The colour terms of one headlight that the frame sets. */
  datatype Headlight = Headlight(ambient: Vec3, diffuse: Vec3, specular: Vec3)

  const HighBeamAmbient := Vec3(5.0, 5.0, 5.0)
  const LowBeamAmbient := Vec3(1.0, 1.0, 1.0)
  /** Diffuse and specular colour of a blinking signal. */
  const SignalAmber := Vec3(15.0, 10.0, 0.0)
  const PlainDiffuse := Vec3(0.3, 0.3, 0.9)
  const PlainSpecular := Vec3(1.0, 1.0, 1.0)

  const HeadlightAtStart := Headlight(LowBeamAmbient, PlainDiffuse, PlainSpecular)

  /** C++ conversion of a float to int: the fraction is dropped, rounding
      toward zero. */
  function TruncateToInt(t: real): (n: int)
    ensures t >= 0.0 ==> n >= 0 && n as real <= t < n as real + 1.0
    ensures t < 0.0 ==> n <= 0 && n as real - 1.0 < t <= n as real
  {
    if t >= 0.0 then t.Floor else -((-t).Floor)
  }

  /** C++ `%` on int: the remainder takes the sign of the dividend. */
  function CRemainder(a: int, b: int): (r: int)
    requires b > 0
    ensures a >= 0 ==> 0 <= r < b
    ensures a < 0 ==> -b < r <= 0
    ensures exists q :: a == b * q + r
  {
    if a >= 0 then
      assert a == b * (a / b) + a % b;
      a % b
    else
      var q := (-a) / b;
      assert -a == b * q + (-a) % b;
      assert a == b * (-q) + -((-a) % b);
      -((-a) % b)
  }

  /** A number is odd exactly when its C++ remainder by 2 is non-zero, also
      for a negative number, whose remainder is then -1. */
  lemma CRemainderParity(n: int)
    ensures CRemainder(n, 2) != 0 <==> n % 2 == 1
  {
    if n < 0 {
      assert (-n) % 2 == 1 <==> n % 2 == 1 by {
        assert n == -(-n);
        assert (-n) % 2 == 0 ==> n % 2 == 0;
        assert (-n) % 2 == 1 ==> n % 2 == 1;
      }
    }
  }

  /** The signal is lit when the whole part of the clock is odd; for the
      non-negative times the clock reports, that is floor(t) mod 2 == 1. */
  ghost predicate SignalLit(t: real): (lit: bool)
    ensures t >= 0.0 ==> (lit <==> t.Floor % 2 == 1)
  {
    TruncateToInt(t) % 2 == 1
  }

  /** The colours a headlight is given for this frame. */
  ghost function HeadlightFor(highBeam: bool, signal: bool, t: real): (h: Headlight)
    ensures h.ambient == HighBeamAmbient <==> highBeam
    ensures !highBeam ==> h.ambient == LowBeamAmbient
    ensures h.diffuse == SignalAmber <==> signal && SignalLit(t)
    ensures h.specular == SignalAmber <==> signal && SignalLit(t)
    ensures h.diffuse == SignalAmber || h.diffuse == PlainDiffuse
    ensures !(signal && SignalLit(t)) ==> h.specular == PlainSpecular
  {
    Headlight(
      if highBeam then HighBeamAmbient else LowBeamAmbient,
      if signal && SignalLit(t) then SignalAmber else PlainDiffuse,
      if signal && SignalLit(t) then SignalAmber else PlainSpecular)
  }

  /** The one-second strobe: lit at 1.9 s, dark at 2.1 s. */
  lemma StrobeScenario()
    ensures SignalLit(1.9) && !SignalLit(2.1)
  {
    assert TruncateToInt(1.9) == 1;
    assert TruncateToInt(2.1) == 2;
  }

  /** Over non-negative times the strobe is constant on each whole second and
      alternates from one second to the next. */
  lemma StrobeBySecond(k: nat, t: real)
    requires k as real <= t < k as real + 1.0
    ensures SignalLit(t) <==> k % 2 == 1
    ensures SignalLit(t + 1.0) <==> !SignalLit(t)
  {
    assert TruncateToInt(t) == k;
    assert TruncateToInt(t + 1.0) == k + 1;
  }
}
