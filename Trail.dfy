// The cursor and the trail chain of the background animator, as values.
// Numbers are `real`: floating-point rounding is not modelled.

module Trail {

  /** A point of the drawing surface (the smoothed cursor, the pointer target). */
  datatype Point = Point(x: real, y: real)

  /** One link of the trail chain: where it is and how it is drawn. */
  datatype Segment = Segment(x: real, y: real, size: real, opacity: real)

  /** Number of links `createTrail` pushes. */
  const TrailSegments: nat := 20
  /** Fraction of the remaining distance the cursor covers per frame. */
  const CursorEase: real := 0.15
  /** Fraction of the remaining distance a link covers toward its predecessor per frame. */
  const TrailEase: real := 0.25

  /** `from += (to - from) * k`, the damped-follow step used for the cursor and the links. */
  function Approach(from: real, to: real, k: real): real
  {
    from + (to - from) * k
  }

  /** The smoothed cursor after one frame, each axis independently. */
  function Damp(mouse: Point, target: Point): Point
  {
    Point(Approach(mouse.x, target.x, CursorEase), Approach(mouse.y, target.y, CursorEase))
  }

  /** A link after it moved toward `leader`; only its position changes. */
  function Follow(seg: Segment, leader: Segment): Segment
  {
    seg.(x := Approach(seg.x, leader.x, TrailEase), y := Approach(seg.y, leader.y, TrailEase))
  }

  /** The head link placed on the cursor. */
  function Pin(seg: Segment, p: Point): Segment
  {
    seg.(x := p.x, y := p.y)
  }

  /**
   * The whole chain after one frame, stated as a simultaneous update: every link
   * chases the position its predecessor had BEFORE the frame, and the head sits on
   * the cursor. The in-place loop of `updateTrail` is proved to compute this.
   */
  function Propagated(chain: seq<Segment>, head: Point): seq<Segment>
    requires |chain| > 0
  {
    seq(|chain|, i requires 0 <= i < |chain| =>
      if i == 0 then Pin(chain[0], head) else Follow(chain[i], chain[i - 1]))
  }

  /** The `i`-th link pushed by `createTrail` on a surface of the given size. */
  function InitialSegment(width: real, height: real, i: nat): Segment
  {
    Segment(width / 2.0, height / 2.0, 8.0 - (i as real) * 0.3, 1.0 - (i as real) * 0.05)
  }

  /** The links `createTrail` pushes, in order. */
  function InitialTrail(width: real, height: real): seq<Segment>
  {
    seq(TrailSegments, i requires 0 <= i < TrailSegments => InitialSegment(width, height, i))
  }

  /** `v` lies between `a` and `b`, strictly when they differ. */
  predicate StrictlyBetween(a: real, v: real, b: real)
  {
    (a < b ==> a < v < b) && (b < a ==> b < v < a) && (a == b ==> v == a)
  }

  /** The cursor after `n` frames with a fixed target. */
  function CursorAfter(mouse: Point, target: Point, n: nat): Point
    decreases n
  {
    if n == 0 then mouse else CursorAfter(Damp(mouse, target), target, n - 1)
  }

  function Pow(b: real, n: nat): real
  {
    if n == 0 then 1.0 else b * Pow(b, n - 1)
  }

  // ---------------------------------------------------------------------------
  // The cursor

  /** One frame leaves 85% of the remaining distance on each axis, and the step stays between cursor and target. */
  lemma DampShrinksDistance(mouse: Point, target: Point)
    ensures target.x - Damp(mouse, target).x == 0.85 * (target.x - mouse.x)
    ensures target.y - Damp(mouse, target).y == 0.85 * (target.y - mouse.y)
    ensures StrictlyBetween(mouse.x, Damp(mouse, target).x, target.x)
    ensures StrictlyBetween(mouse.y, Damp(mouse, target).y, target.y)
  {
  }

  /** The cursor stays put exactly when it already is on the target. */
  lemma DampFixedPoint(mouse: Point, target: Point)
    ensures Damp(mouse, target) == mouse <==> mouse == target
  {
    if Damp(mouse, target) == mouse {
      assert (target.x - mouse.x) * CursorEase == 0.0;
      assert (target.y - mouse.y) * CursorEase == 0.0;
    }
  }

  /** Geometric convergence: after `n` frames the distance to a fixed target is the initial one times 0.85^n. */
  lemma {:induction false} CursorConverges(mouse: Point, target: Point, n: nat)
    ensures target.x - CursorAfter(mouse, target, n).x == (target.x - mouse.x) * Pow(0.85, n)
    ensures target.y - CursorAfter(mouse, target, n).y == (target.y - mouse.y) * Pow(0.85, n)
    decreases n
  {
    if n > 0 {
      var next := Damp(mouse, target);
      CursorConverges(next, target, n - 1);
      DampShrinksDistance(mouse, target);
      calc {
        target.x - CursorAfter(mouse, target, n).x;
        (target.x - next.x) * Pow(0.85, n - 1);
        (0.85 * (target.x - mouse.x)) * Pow(0.85, n - 1);
        (target.x - mouse.x) * (0.85 * Pow(0.85, n - 1));
      }
      calc {
        target.y - CursorAfter(mouse, target, n).y;
        (target.y - next.y) * Pow(0.85, n - 1);
        (0.85 * (target.y - mouse.y)) * Pow(0.85, n - 1);
        (target.y - mouse.y) * (0.85 * Pow(0.85, n - 1));
      }
    }
  }

  // ---------------------------------------------------------------------------
  // The chain

  /** The chain keeps its length and every link keeps its size and opacity. */
  lemma PropagatedKeepsStyle(chain: seq<Segment>, head: Point)
    requires |chain| > 0
    ensures |Propagated(chain, head)| == |chain|
    ensures forall i :: 0 <= i < |chain| ==>
      Propagated(chain, head)[i].size == chain[i].size && Propagated(chain, head)[i].opacity == chain[i].opacity
  {
    var next := Propagated(chain, head);
    forall i | 0 <= i < |chain|
      ensures next[i].size == chain[i].size && next[i].opacity == chain[i].opacity
    {
    }
  }

  /** The head sits exactly on the cursor. */
  lemma PropagatedPinsHead(chain: seq<Segment>, head: Point)
    requires |chain| > 0
    ensures Propagated(chain, head)[0].x == head.x && Propagated(chain, head)[0].y == head.y
  {
  }

  /**
   * Every link after the head ends strictly between where it was and where its
   * predecessor was before the frame, a quarter of the way along.
   */
  lemma PropagatedChases(chain: seq<Segment>, head: Point, i: nat)
    requires 0 < i < |chain|
    ensures StrictlyBetween(chain[i].x, Propagated(chain, head)[i].x, chain[i - 1].x)
    ensures StrictlyBetween(chain[i].y, Propagated(chain, head)[i].y, chain[i - 1].y)
    ensures chain[i - 1].x - Propagated(chain, head)[i].x == 0.75 * (chain[i - 1].x - chain[i].x)
    ensures chain[i - 1].y - Propagated(chain, head)[i].y == 0.75 * (chain[i - 1].y - chain[i].y)
  {
  }

  /** A link that already sits on its predecessor does not move. */
  lemma FollowInPlace(seg: Segment, leader: Segment)
    requires seg.x == leader.x && seg.y == leader.y
    ensures Follow(seg, leader) == seg
  {
  }

  /**
   * The pushed chain: 20 links, all on the centre of the surface, sizes and
   * opacities strictly decreasing from head to tail and all positive.
   */
  lemma InitialTrailShape(width: real, height: real)
    ensures |InitialTrail(width, height)| == TrailSegments
    ensures forall i :: 0 <= i < TrailSegments ==>
      InitialTrail(width, height)[i].x == width / 2.0 && InitialTrail(width, height)[i].y == height / 2.0
    ensures forall i :: 0 <= i < TrailSegments ==>
      InitialTrail(width, height)[i].size > 0.0 && InitialTrail(width, height)[i].opacity > 0.0
    ensures forall i, j :: 0 <= i < j < TrailSegments ==>
      InitialTrail(width, height)[i].size > InitialTrail(width, height)[j].size &&
      InitialTrail(width, height)[i].opacity > InitialTrail(width, height)[j].opacity
  {
  }

  /**
   * A frame on the freshly pushed chain: the head jumps to the cursor and every
   * other link stays on the centre, since each one already sits on its predecessor.
   */
  lemma PropagatedFromCollapsed(width: real, height: real, head: Point)
    ensures |Propagated(InitialTrail(width, height), head)| == TrailSegments
    ensures Propagated(InitialTrail(width, height), head)[0].x == head.x
    ensures Propagated(InitialTrail(width, height), head)[0].y == head.y
    ensures forall i :: 0 < i < TrailSegments ==>
      Propagated(InitialTrail(width, height), head)[i] == InitialSegment(width, height, i)
  {
    var chain := InitialTrail(width, height);
    forall i | 0 < i < TrailSegments
      ensures Propagated(chain, head)[i] == InitialSegment(width, height, i)
    {
      FollowInPlace(chain[i], chain[i - 1]);
    }
  }
}
