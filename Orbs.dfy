// The gradient orbs of the background animator, as values: how one is generated
// from injected random draws and how one frame moves it.

module Orbs {

  /** A value of `Math.random()`: in [0, 1). */
  type Unit = r: real | 0.0 <= r < 1.0

  /** The trigonometry the animator calls, standing for `Math.cos` and `Math.sin`. */
  datatype Trig = Trig(cos: real -> real, sin: real -> real)

  /** All that is assumed of `Math.cos` and `Math.sin`: their values lie in [-1, 1]. */
  ghost predicate TrigBounded(trig: Trig)
  {
    forall a :: -1.0 <= trig.cos(a) <= 1.0 && -1.0 <= trig.sin(a) <= 1.0
  }

  /** `Math.PI` as written in decimal. */
  const Pi: real := 3.141592653589793
  /** Orbs pushed by one `createGradientOrbs`. */
  const OrbCount: nat := 8
  /** `Math.random()` calls per pushed orb, one per randomised field. */
  const DrawsPerOrb: nat := 15
  /** `Math.random()` calls per `createGradientOrbs`. */
  const PoolDraws: nat := OrbCount * DrawsPerOrb
  /** Absolute amplitude of the pulse, in pixels. */
  const PulseAmplitude: real := 80.0
  /** Fraction of the drift by which the orbit centre migrates per frame. */
  const CenterDrift: real := 0.3

  /** One orb, its fields in the order the source's object literal lists them. */
  datatype Orb = Orb(
    x: real, y: real,
    baseSize: real, size: real, targetSize: real,
    speedX: real, speedY: real,
    opacity: real,
    pulseSpeed: real, pulsePhase: real,
    colorIndex: int,
    angle: real, radius: real,
    centerX: real, centerY: real,
    orbitSpeed: real)

  /** `v` lies in [0, extent), or is 0 on an empty extent. */
  predicate InSpan(v: real, extent: real)
  {
    0.0 <= v <= extent && (extent > 0.0 ==> v < extent)
  }

  /** The ranges of the fields a frame never changes, as generation leaves them. */
  predicate OrbParams(o: Orb)
  {
    && 250.0 <= o.baseSize < 600.0
    && 250.0 <= o.targetSize < 600.0
    && -0.4 <= o.speedX < 0.4
    && -0.4 <= o.speedY < 0.4
    && 0.08 <= o.opacity < 0.23
    && 0.002 <= o.pulseSpeed < 0.005
    && 0 <= o.colorIndex < 3
    && 100.0 <= o.radius < 300.0
    && -0.005 <= o.orbitSpeed < 0.005
  }

  /** What a freshly pushed orb looks like on a surface of the given size. */
  predicate Spawned(o: Orb, width: real, height: real)
  {
    && OrbParams(o)
    && InSpan(o.x, width) && InSpan(o.y, height)
    && InSpan(o.centerX, width) && InSpan(o.centerY, height)
    && o.size == 0.0
    && 0.0 <= o.pulsePhase < 2.0 * Pi
    && 0.0 <= o.angle < 2.0 * Pi
  }

  lemma ScaledInSpan(r: Unit, extent: real)
    requires extent >= 0.0
    ensures InSpan(r * extent, extent)
  {
    if extent > 0.0 {
      assert r * extent < 1.0 * extent;
    }
  }

  /** The orb pushed from the draws `d`, taken in the order of the source's fields. */
  function NewOrb(d: seq<Unit>, width: real, height: real): (o: Orb)
    requires |d| == DrawsPerOrb
    requires width >= 0.0 && height >= 0.0
    ensures Spawned(o, width, height)
  {
    ScaledInSpan(d[0], width);
    ScaledInSpan(d[1], height);
    ScaledInSpan(d[12], width);
    ScaledInSpan(d[13], height);
    Orb(
      x := (d[0] as real) * width,
      y := (d[1] as real) * height,
      baseSize := (d[2] as real) * 350.0 + 250.0,
      size := 0.0,
      targetSize := (d[3] as real) * 350.0 + 250.0,
      speedX := ((d[4] as real) - 0.5) * 0.8,
      speedY := ((d[5] as real) - 0.5) * 0.8,
      opacity := (d[6] as real) * 0.15 + 0.08,
      pulseSpeed := (d[7] as real) * 0.003 + 0.002,
      pulsePhase := (d[8] as real) * Pi * 2.0,
      colorIndex := ((d[9] as real) * 3.0).Floor,
      angle := (d[10] as real) * Pi * 2.0,
      radius := (d[11] as real) * 200.0 + 100.0,
      centerX := (d[12] as real) * width,
      centerY := (d[13] as real) * height,
      orbitSpeed := ((d[14] as real) - 0.5) * 0.01)
  }

  /** The draws of the `i`-th orb of one `createGradientOrbs`. */
  function OrbDraws(draws: seq<Unit>, i: nat): (d: seq<Unit>)
    requires |draws| == PoolDraws && i < OrbCount
    ensures |d| == DrawsPerOrb
  {
    draws[i * DrawsPerOrb .. i * DrawsPerOrb + DrawsPerOrb]
  }

  /** The eight orbs one `createGradientOrbs` pushes; every one of them is `Spawned`. */
  function GeneratedOrbs(draws: seq<Unit>, width: real, height: real): (pool: seq<Orb>)
    requires |draws| == PoolDraws
    requires width >= 0.0 && height >= 0.0
    ensures |pool| == OrbCount
    ensures forall i :: 0 <= i < OrbCount ==> Spawned(pool[i], width, height)
  {
    seq(OrbCount, i requires 0 <= i < OrbCount => NewOrb(OrbDraws(draws, i), width, height))
  }

  /**
   * The orb after the orbit, drift and pulse part of a frame, before any wraparound:
   * the position is recomputed from the centre and the advanced angle, not from
   * the previous position.
   */
  function Advance(o: Orb, trig: Trig): Orb
  {
    var angle := o.angle + o.orbitSpeed;
    var phase := o.pulsePhase + o.pulseSpeed;
    o.(
      angle := angle,
      x := o.centerX + trig.cos(angle) * o.radius + o.speedX,
      y := o.centerY + trig.sin(angle) * o.radius + o.speedY,
      centerX := o.centerX + o.speedX * CenterDrift,
      centerY := o.centerY + o.speedY * CenterDrift,
      pulsePhase := phase,
      size := o.baseSize + trig.sin(phase) * PulseAmplitude)
  }

  /**
   * Wraparound on one axis: a coordinate past one edge by more than `size`
   * teleports to the other edge, offset by `size`, and the centre follows it.
   * At most one of the two teleports applies.
   */
  function WrapAxis(v: real, center: real, size: real, extent: real): (real, real)
  {
    if v < -size then (extent + size, extent + size)
    else if v > extent + size then (-size, -size)
    else (v, center)
  }

  function WrapOrb(o: Orb, width: real, height: real): Orb
  {
    var (x, cx) := WrapAxis(o.x, o.centerX, o.size, width);
    var (y, cy) := WrapAxis(o.y, o.centerY, o.size, height);
    o.(x := x, centerX := cx, y := y, centerY := cy)
  }

  /** One orb after one frame of `updateGradientOrbs`. */
  function StepOrb(o: Orb, width: real, height: real, trig: Trig): Orb
  {
    WrapOrb(Advance(o, trig), width, height)
  }

  /** Every orb of the pool after one frame of `updateGradientOrbs`, in pool order. */
  function SteppedPool(pool: seq<Orb>, width: real, height: real, trig: Trig): (next: seq<Orb>)
    ensures |next| == |pool|
  {
    seq(|pool|, i requires 0 <= i < |pool| => StepOrb(pool[i], width, height, trig))
  }

  // ---------------------------------------------------------------------------
  // Properties of one frame

  /** The angle and the pulse phase advance by their speeds; the size lies within 80 of the base size. */
  lemma StepOrbPulse(o: Orb, width: real, height: real, trig: Trig)
    requires TrigBounded(trig)
    ensures StepOrb(o, width, height, trig).angle == o.angle + o.orbitSpeed
    ensures StepOrb(o, width, height, trig).pulsePhase == o.pulsePhase + o.pulseSpeed
    ensures o.baseSize - PulseAmplitude <= StepOrb(o, width, height, trig).size <= o.baseSize + PulseAmplitude
  {
    assert -1.0 <= trig.sin(o.pulsePhase + o.pulseSpeed) <= 1.0;
  }

  /** A frame keeps every parameter, so generated ranges hold forever, and the size stays at least 170. */
  lemma StepOrbKeepsParams(o: Orb, width: real, height: real, trig: Trig)
    requires OrbParams(o) && TrigBounded(trig)
    ensures var r := StepOrb(o, width, height, trig);
      && OrbParams(r)
      && r.baseSize == o.baseSize && r.targetSize == o.targetSize
      && r.speedX == o.speedX && r.speedY == o.speedY
      && r.opacity == o.opacity && r.pulseSpeed == o.pulseSpeed
      && r.colorIndex == o.colorIndex && r.radius == o.radius && r.orbitSpeed == o.orbitSpeed
      && 170.0 <= r.size < 680.0
  {
    StepOrbPulse(o, width, height, trig);
  }

  /** With no wraparound, the position is the orbit point plus the drift, and the centre migrated by 30% of the drift. */
  lemma StepOrbUnwrapped(o: Orb, width: real, height: real, trig: Trig)
    requires var a := Advance(o, trig); -a.size <= a.x <= width + a.size
    requires var a := Advance(o, trig); -a.size <= a.y <= height + a.size
    ensures var r := StepOrb(o, width, height, trig);
      && r.x == o.centerX + trig.cos(o.angle + o.orbitSpeed) * o.radius + o.speedX
      && r.y == o.centerY + trig.sin(o.angle + o.orbitSpeed) * o.radius + o.speedY
      && r.centerX == o.centerX + 0.3 * o.speedX
      && r.centerY == o.centerY + 0.3 * o.speedY
  {
  }

  /** Past the right edge: the orb reappears at `-size` and the centre is resynchronised to it. */
  lemma StepOrbWrapsRight(o: Orb, width: real, height: real, trig: Trig)
    requires var a := Advance(o, trig); a.x > width + a.size && a.size >= -width / 2.0
    ensures var r := StepOrb(o, width, height, trig); r.x == -r.size && r.centerX == r.x
  {
  }

  /** Past the left edge: the orb reappears at `width + size` and the centre is resynchronised to it. */
  lemma StepOrbWrapsLeft(o: Orb, width: real, height: real, trig: Trig)
    requires var a := Advance(o, trig); a.x < -a.size
    ensures var r := StepOrb(o, width, height, trig); r.x == width + r.size && r.centerX == r.x
  {
  }

  /** Past the bottom edge: the orb reappears at `-size` and the centre is resynchronised to it. */
  lemma StepOrbWrapsDown(o: Orb, width: real, height: real, trig: Trig)
    requires var a := Advance(o, trig); a.y > height + a.size && a.size >= -height / 2.0
    ensures var r := StepOrb(o, width, height, trig); r.y == -r.size && r.centerY == r.y
  {
  }

  /** Past the top edge: the orb reappears at `height + size` and the centre is resynchronised to it. */
  lemma StepOrbWrapsUp(o: Orb, width: real, height: real, trig: Trig)
    requires var a := Advance(o, trig); a.y < -a.size
    ensures var r := StepOrb(o, width, height, trig); r.y == height + r.size && r.centerY == r.y
  {
  }

  /** After a frame, a well-formed orb lies inside the surface padded by its size on every side. */
  lemma StepOrbInBand(o: Orb, width: real, height: real, trig: Trig)
    requires OrbParams(o) && TrigBounded(trig) && width >= 0.0 && height >= 0.0
    ensures var r := StepOrb(o, width, height, trig);
      -r.size <= r.x <= width + r.size && -r.size <= r.y <= height + r.size
  {
    StepOrbKeepsParams(o, width, height, trig);
  }

  /** The previous position plays no part in a frame: only the orbit centre does. */
  lemma StepOrbIgnoresPosition(o: Orb, x: real, y: real, width: real, height: real, trig: Trig)
    ensures StepOrb(o.(x := x, y := y), width, height, trig) == StepOrb(o, width, height, trig)
  {
  }

  /**
   * A frame keeps every orb of a well-formed pool well-formed, at least 170 in
   * size and inside the surface padded by its size.
   */
  lemma SteppedPoolKeepsParams(pool: seq<Orb>, width: real, height: real, trig: Trig)
    requires TrigBounded(trig) && width >= 0.0 && height >= 0.0
    requires forall i :: 0 <= i < |pool| ==> OrbParams(pool[i])
    ensures forall i :: 0 <= i < |pool| ==>
      var r := SteppedPool(pool, width, height, trig)[i];
      && OrbParams(r) && 170.0 <= r.size
      && -r.size <= r.x <= width + r.size && -r.size <= r.y <= height + r.size
  {
    forall i | 0 <= i < |pool|
      ensures var r := SteppedPool(pool, width, height, trig)[i];
        && OrbParams(r) && 170.0 <= r.size
        && -r.size <= r.x <= width + r.size && -r.size <= r.y <= height + r.size
    {
      StepOrbKeepsParams(pool[i], width, height, trig);
      StepOrbInBand(pool[i], width, height, trig);
    }
  }

  /** Pools pushed one after another are well-formed as a whole. */
  lemma GeneratedPoolsParams(first: seq<Unit>, second: seq<Unit>, width: real, height: real)
    requires |first| == PoolDraws && |second| == PoolDraws
    requires width >= 0.0 && height >= 0.0
    ensures var pool := GeneratedOrbs(first, width, height) + GeneratedOrbs(second, width, height);
      |pool| == 2 * OrbCount && forall i :: 0 <= i < |pool| ==> OrbParams(pool[i])
  {
    var a, b := GeneratedOrbs(first, width, height), GeneratedOrbs(second, width, height);
    forall i | 0 <= i < |a + b|
      ensures OrbParams((a + b)[i])
    {
      if i < |a| {
        assert (a + b)[i] == a[i];
      } else {
        assert (a + b)[i] == b[i - |a|];
      }
    }
  }
}
