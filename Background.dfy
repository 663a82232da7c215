// The background animator's state and its per-frame update, in place.
// Drawing, frame scheduling and event wiring are not modelled: the viewport size,
// the pointer coordinates, the `Math.random()` draws and `Math.cos`/`Math.sin`
// come in as parameters.

module Background {
  import opened Trail
  import opened Orbs

  /** `Math.random()` draws the constructor consumes: `resize` and `init` each push a pool. */
  const ConstructionDraws: nat := 2 * PoolDraws

  class InteractiveBackground {
    /** The drawing surface's size (`canvas.width`, `canvas.height`). */
    var width: nat
    var height: nat
    /** The trail chain, head first. */
    var trails: array<Segment>
    var gradientOrbs: seq<Orb>
    /** The smoothed cursor and the latest pointer position. */
    var mouse: Point
    var targetMouse: Point
    /** The frame counter; nothing reads it. */
    var time: nat
    /** `Math.cos` and `Math.sin`. */
    const trig: Trig

    /** The state every frame may rely on. */
    ghost predicate Valid()
      reads this
    {
      && trails.Length == TrailSegments
      && TrigBounded(trig)
      && forall i :: 0 <= i < |gradientOrbs| ==> OrbParams(gradientOrbs[i])
    }

    /**
     * Builds the animator on a viewport of the given size: `init` (a resize, the
     * trail, and a second pool of orbs) and then the first frame. Both cursors
     * start at (0, 0), not at the centre.
     */
    constructor (innerWidth: nat, innerHeight: nat, math: Trig, draws: seq<Unit>)
      requires TrigBounded(math)
      requires |draws| == ConstructionDraws
      ensures Valid() && fresh(trails) && trig == math
      ensures width == innerWidth && height == innerHeight
      ensures time == 1
      ensures mouse == Point(0.0, 0.0) && targetMouse == Point(0.0, 0.0)
      ensures trails[..] == Propagated(InitialTrail(innerWidth as real, innerHeight as real), Point(0.0, 0.0))
      ensures gradientOrbs == SteppedPool(
        GeneratedOrbs(draws[..PoolDraws], innerWidth as real, innerHeight as real) +
        GeneratedOrbs(draws[PoolDraws..], innerWidth as real, innerHeight as real),
        innerWidth as real, innerHeight as real, math)
      ensures |gradientOrbs| == 2 * OrbCount
    {
      trig := math;
      // An HTML canvas starts at 300 x 150 until `resize` sets it.
      width, height := 300, 150;
      trails := new Segment[0];
      gradientOrbs := [];
      mouse := Point(0.0, 0.0);
      targetMouse := Point(0.0, 0.0);
      time := 0;
      new;
      Init(innerWidth, innerHeight, draws);
      ghost var w, h := innerWidth as real, innerHeight as real;
      ghost var pool := gradientOrbs;
      assert trails[..] == InitialTrail(w, h);
      GeneratedPoolsParams(draws[..PoolDraws], draws[PoolDraws..], w, h);
      assert Valid();
      DampFixedPoint(mouse, targetMouse);
      Animate();
      assert mouse == Point(0.0, 0.0);
    }

    /** `init`: resize (which pushes one pool), push the trail, then push a second pool. */
    method Init(innerWidth: nat, innerHeight: nat, draws: seq<Unit>)
      requires |draws| == ConstructionDraws
      modifies this`width, this`height, this`gradientOrbs, this`trails
      ensures width == innerWidth && height == innerHeight
      ensures fresh(trails) && trails[..] == old(trails[..]) + InitialTrail(innerWidth as real, innerHeight as real)
      ensures gradientOrbs ==
        GeneratedOrbs(draws[..PoolDraws], innerWidth as real, innerHeight as real) +
        GeneratedOrbs(draws[PoolDraws..], innerWidth as real, innerHeight as real)
    {
      Resize(innerWidth, innerHeight, draws[..PoolDraws]);
      CreateTrail();
      CreateGradientOrbs(draws[PoolDraws..]);
    }

    /** `resize`: adopt the viewport's size and replace the pool by eight new orbs. */
    method Resize(innerWidth: nat, innerHeight: nat, draws: seq<Unit>)
      requires |draws| == PoolDraws
      modifies this`width, this`height, this`gradientOrbs
      ensures width == innerWidth && height == innerHeight
      ensures gradientOrbs == GeneratedOrbs(draws, innerWidth as real, innerHeight as real)
      ensures |gradientOrbs| == OrbCount
      ensures old(Valid()) ==> Valid()
    {
      width := innerWidth;
      height := innerHeight;
      gradientOrbs := [];
      CreateGradientOrbs(draws);
    }

    /** `createTrail`: push the twenty links, all on the centre of the surface. */
    method CreateTrail()
      modifies this`trails
      ensures fresh(trails)
      ensures trails[..] == old(trails[..]) + InitialTrail(width as real, height as real)
    {
      var n := trails.Length;
      var grown := new Segment[n + TrailSegments];
      forall k | 0 <= k < n {
        grown[k] := trails[k];
      }
      for i := 0 to TrailSegments
        invariant grown[..n] == old(trails[..])
        invariant forall k :: n <= k < n + i ==> grown[k] == InitialSegment(width as real, height as real, k - n)
      {
        grown[n + i] := InitialSegment(width as real, height as real, i);
      }
      trails := grown;
    }

    /** `createGradientOrbs`: push eight orbs, each from the next fifteen draws. */
    method CreateGradientOrbs(draws: seq<Unit>)
      requires |draws| == PoolDraws
      modifies this`gradientOrbs
      ensures gradientOrbs == old(gradientOrbs) + GeneratedOrbs(draws, width as real, height as real)
    {
      ghost var pushed := GeneratedOrbs(draws, width as real, height as real);
      for i := 0 to OrbCount
        invariant gradientOrbs == old(gradientOrbs) + pushed[..i]
      {
        gradientOrbs := gradientOrbs + [NewOrb(OrbDraws(draws, i), width as real, height as real)];
        assert pushed[..i + 1] == pushed[..i] + [pushed[i]];
      }
      assert pushed[..OrbCount] == pushed;
    }

    /** The pointer-move handler: only the target moves. */
    method PointerMove(clientX: real, clientY: real)
      modifies this`targetMouse
      ensures targetMouse == Point(clientX, clientY)
    {
      targetMouse := targetMouse.(x := clientX);
      targetMouse := targetMouse.(y := clientY);
    }

    /**
     * `updateTrail`: damp the cursor, let every link after the head chase its
     * predecessor (walking from the tail, so each one still sees its
     * predecessor's position from before the frame), then pin the head.
     */
    method UpdateTrail()
      requires trails.Length > 0
      modifies this`mouse, trails
      ensures mouse == Damp(old(mouse), targetMouse)
      ensures trails[..] == Propagated(old(trails[..]), mouse)
    {
      mouse := mouse.(x := mouse.x + (targetMouse.x - mouse.x) * CursorEase);
      mouse := mouse.(y := mouse.y + (targetMouse.y - mouse.y) * CursorEase);
      var i := trails.Length - 1;
      while i > 0
        invariant 0 <= i < trails.Length
        invariant mouse == Damp(old(mouse), targetMouse)
        invariant forall k :: 0 <= k <= i ==> trails[k] == old(trails[k])
        invariant forall k :: i < k < trails.Length ==> trails[k] == Follow(old(trails[k]), old(trails[k - 1]))
      {
        trails[i] := trails[i].(x := trails[i].x + (trails[i - 1].x - trails[i].x) * TrailEase);
        trails[i] := trails[i].(y := trails[i].y + (trails[i - 1].y - trails[i].y) * TrailEase);
        i := i - 1;
      }
      trails[0] := trails[0].(x := mouse.x);
      trails[0] := trails[0].(y := mouse.y);
    }

    /** The body of the `forEach` in `updateGradientOrbs`, one orb at a time. */
    method MoveOrb(o: Orb) returns (orb: Orb)
      ensures orb == StepOrb(o, width as real, height as real, trig)
    {
      orb := o;
      orb := orb.(angle := orb.angle + orb.orbitSpeed);
      orb := orb.(x := orb.centerX + trig.cos(orb.angle) * orb.radius);
      orb := orb.(y := orb.centerY + trig.sin(orb.angle) * orb.radius);
      orb := orb.(x := orb.x + orb.speedX);
      orb := orb.(y := orb.y + orb.speedY);
      orb := orb.(centerX := orb.centerX + orb.speedX * CenterDrift);
      orb := orb.(centerY := orb.centerY + orb.speedY * CenterDrift);
      orb := orb.(pulsePhase := orb.pulsePhase + orb.pulseSpeed);
      orb := orb.(size := orb.baseSize + trig.sin(orb.pulsePhase) * PulseAmplitude);
      ghost var advanced := orb;
      assert advanced == Advance(o, trig);
      if orb.x < -orb.size {
        orb := orb.(x := width as real + orb.size);
        orb := orb.(centerX := orb.x);
      }
      if orb.x > width as real + orb.size {
        orb := orb.(x := -orb.size);
        orb := orb.(centerX := orb.x);
      }
      ghost var across := WrapAxis(advanced.x, advanced.centerX, advanced.size, width as real);
      assert orb == advanced.(x := across.0, centerX := across.1);
      if orb.y < -orb.size {
        orb := orb.(y := height as real + orb.size);
        orb := orb.(centerY := orb.y);
      }
      if orb.y > height as real + orb.size {
        orb := orb.(y := -orb.size);
        orb := orb.(centerY := orb.y);
      }
    }

    /** `updateGradientOrbs`: move every orb of the pool, in place. */
    method UpdateGradientOrbs()
      modifies this`gradientOrbs
      ensures gradientOrbs == SteppedPool(old(gradientOrbs), width as real, height as real, trig)
    {
      var i := 0;
      while i < |gradientOrbs|
        invariant 0 <= i <= |gradientOrbs| == |old(gradientOrbs)|
        invariant forall k :: 0 <= k < i ==>
          gradientOrbs[k] == StepOrb(old(gradientOrbs)[k], width as real, height as real, trig)
        invariant forall k :: i <= k < |gradientOrbs| ==> gradientOrbs[k] == old(gradientOrbs)[k]
      {
        var orb := MoveOrb(gradientOrbs[i]);
        gradientOrbs := gradientOrbs[i := orb];
        i := i + 1;
      }
    }

    /**
     * The update part of `animate`: count the frame, update the trail, then
     * the orbs. After it every orb is at least 170 in size and inside the
     * surface padded by its size.
     */
    method Animate()
      requires Valid()
      modifies this`time, this`mouse, this`gradientOrbs, trails
      ensures Valid()
      ensures time == old(time) + 1
      ensures mouse == Damp(old(mouse), targetMouse)
      ensures trails[..] == Propagated(old(trails[..]), mouse)
      ensures gradientOrbs == SteppedPool(old(gradientOrbs), width as real, height as real, trig)
      ensures forall i :: 0 <= i < |gradientOrbs| ==>
        var o := gradientOrbs[i];
        && 170.0 <= o.size
        && -o.size <= o.x <= width as real + o.size
        && -o.size <= o.y <= height as real + o.size
    {
      time := time + 1;
      UpdateTrail();
      ghost var pool := gradientOrbs;
      UpdateGradientOrbs();
      SteppedPoolKeepsParams(pool, width as real, height as real, trig);
    }
  }

  // ---------------------------------------------------------------------------
  // What callers see

  /** A freshly built animator has run one frame: the head sits at (0, 0) and there are 16 orbs. */
  method FreshAnimator(math: Trig, draws: seq<Unit>) returns (head: Point, orbs: nat, frames: nat)
    requires TrigBounded(math) && |draws| == ConstructionDraws
    ensures head == Point(0.0, 0.0) && orbs == 16 && frames == 1
  {
    var bg := new InteractiveBackground(800, 600, math, draws);
    PropagatedPinsHead(InitialTrail(800.0, 600.0), Point(0.0, 0.0));
    head := Point(bg.trails[0].x, bg.trails[0].y);
    orbs := |bg.gradientOrbs|;
    frames := bg.time;
  }

  /**
   * One more frame without input on an 800 x 600 viewport: the head stays at
   * (0, 0) and the second link moves a quarter of the way from the centre to it.
   */
  method FrameWithoutInput(math: Trig, draws: seq<Unit>) returns (head: Point, second: Point)
    requires TrigBounded(math) && |draws| == ConstructionDraws
    ensures head == Point(0.0, 0.0) && second == Point(300.0, 225.0)
  {
    var bg := new InteractiveBackground(800, 600, math, draws);
    PropagatedFromCollapsed(800.0, 600.0, Point(0.0, 0.0));
    bg.Animate();
    head := Point(bg.trails[0].x, bg.trails[0].y);
    second := Point(bg.trails[1].x, bg.trails[1].y);
  }

  /** A pointer move to (500, 300) and one frame bring the cursor 15% of the way from (0, 0). */
  method PointerThenFrame(math: Trig, draws: seq<Unit>) returns (cursor: Point)
    requires TrigBounded(math) && |draws| == ConstructionDraws
    ensures cursor == Point(75.0, 45.0)
  {
    var bg := new InteractiveBackground(800, 600, math, draws);
    bg.PointerMove(500.0, 300.0);
    bg.Animate();
    cursor := bg.mouse;
  }

  /** After a resize the pool holds exactly eight new orbs, all inside the new viewport. */
  method ResizeRegenerates(math: Trig, draws: seq<Unit>, more: seq<Unit>) returns (pool: seq<Orb>)
    requires TrigBounded(math) && |draws| == ConstructionDraws && |more| == PoolDraws
    ensures |pool| == OrbCount
    ensures forall i :: 0 <= i < |pool| ==> Spawned(pool[i], 1024.0, 768.0)
  {
    var bg := new InteractiveBackground(800, 600, math, draws);
    bg.Resize(1024, 768, more);
    pool := bg.gradientOrbs;
  }
}
