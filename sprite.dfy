/** The Pacman sprite (pacman.js): its kinematics, stepped in place once per
    frame, and the numbers its drawing feeds to the canvas. */
module Sprite {
  import opened Host
  import opened Vectors

  const INITIAL_SPEED: real := 50.0
  /** Up and to the left. */
  const INITIAL_ANGLE: real := PI * 3.0 / 4.0
  const RADIUS: real := 15.5
  /** Width and height the constructor gives the canvas. */
  const CANVAS_SIDE: real := 2.0 * RADIUS + 2.0
  /** The body's centre in canvas coordinates, `radius + 1` on both axes. */
  const CENTRE: real := RADIUS + 1.0
  /** Half-angle of the body arc when the mouth is widest open. */
  const MOUTH_MIN: real := 2.6
  const EYE_RADIUS: real := 2.0
  const EYE_DX: real := 6.0
  const EYE_DY: real := 8.0

  /** The sprite's state as a value. `lastUpdate` is `None` while the JS field
      is still `undefined`. */
  datatype Kinematics = Kinematics(position: Vec, speed: real, angle: real, lastUpdate: Option<real>)

  ghost predicate InViewport(p: Vec, vp: Viewport)
  {
    0.0 <= p.x <= vp.width && 0.0 <= p.y <= vp.height
  }

  /** `Math.min(Math.max(0, v), bound)`. */
  function Clamp(v: real, bound: real): (r: real)
    ensures r <= bound
    ensures 0.0 <= bound ==> 0.0 <= r
    ensures 0.0 <= v <= bound ==> r == v
    ensures v < 0.0 <= bound ==> r == 0.0
    ensures bound < v ==> r == bound
  {
    var atLeastZero := if v < 0.0 then 0.0 else v;
    if bound < atLeastZero then bound else atLeastZero
  }

  /** The explicit Euler step before clamping: `dt` seconds along `angle`,
      with the screen's y axis pointing down. */
  function Advanced(k: Kinematics, dt: real, m: MathLib): Vec
  {
    Vec(k.position.x + m.cos(k.angle) * k.speed * dt,
        k.position.y - m.sin(k.angle) * k.speed * dt)
  }

  /** `updatePosition(timestamp)` as a function of the state. */
  function Updated(k: Kinematics, timestamp: real, vp: Viewport, m: MathLib): (r: Kinematics)
    ensures r.speed == k.speed && r.angle == k.angle
    ensures r.lastUpdate == Some(timestamp)
    ensures k.lastUpdate.None? ==> r.position == k.position
    ensures k.lastUpdate.Some? ==>
      var p := Advanced(k, (timestamp - k.lastUpdate.value) / 1000.0, m);
      r.position == Vec(Clamp(p.x, vp.width), Clamp(p.y, vp.height))
    ensures k.lastUpdate.Some? && 0.0 <= vp.width && 0.0 <= vp.height ==> InViewport(r.position, vp)
  {
    match k.lastUpdate
    case None => k.(lastUpdate := Some(timestamp))
    case Some(last) =>
      var p := Advanced(k, (timestamp - last) / 1000.0, m);
      k.(position := Vec(Clamp(p.x, vp.width), Clamp(p.y, vp.height)), lastUpdate := Some(timestamp))
  }

  /** Every update clamps, except the very first, so two updates in a row put
      the sprite inside the viewport of the second, whatever the first did. */
  lemma SecondUpdateInViewport(k: Kinematics, t0: real, vp0: Viewport, t1: real, vp1: Viewport, m: MathLib)
    requires 0.0 <= vp1.width && 0.0 <= vp1.height
    ensures InViewport(Updated(Updated(k, t0, vp0, m), t1, vp1, m).position, vp1)
  {
  }

  /** Whether Pacman moves to the left: the angle lies strictly between PI/2 and 3*PI/2. */
  predicate MovesLeft(angle: real)
  {
    PI / 2.0 < angle && angle < 3.0 * PI / 2.0
  }

  /** The two boundary angles count as not moving left; the initial angle does. */
  lemma MovesLeftBoundaries()
    ensures !MovesLeft(PI / 2.0) && !MovesLeft(3.0 * PI / 2.0)
    ensures MovesLeft(INITIAL_ANGLE)
  {
  }

  /** `Math.abs(ms % 500 - 250)` for the wall-clock milliseconds `ms`:
      a phase that falls from 250 to 0 and rises back every 500 ms. */
  function MouthPhase(ms: nat): (phase: int)
    ensures 0 <= phase <= 250
    ensures ms % 500 == 0 <==> phase == 250
    ensures ms % 500 == 250 <==> phase == 0
  {
    var d := ms % 500 - 250;
    if d < 0 then -d else d
  }

  /** The phase repeats every 500 ms. */
  lemma MouthPhasePeriodic(ms: nat)
    ensures MouthPhase(ms + 500) == MouthPhase(ms)
  {
    assert (ms + 500) % 500 == ms % 500;
  }

  /** The half-angle of the body arc for a phase: 2.6 at phase 0, PI at phase 250. */
  function HalfAngle(phase: int): real
  {
    MOUTH_MIN + (PI - MOUTH_MIN) * (phase as real) / 250.0
  }

  /** A larger phase never gives a smaller half-angle. */
  lemma HalfAngleMonotonic(p: int, q: int)
    requires p <= q
    ensures HalfAngle(p) <= HalfAngle(q)
  {
  }

  /** The half-angle `drawShape` uses at wall-clock milliseconds `ms`. */
  function MouthHalfAngle(ms: nat): (a: real)
    ensures MOUTH_MIN <= a <= PI
    ensures ms % 500 == 0 ==> a == PI
    ensures ms % 500 == 250 ==> a == MOUTH_MIN
  {
    HalfAngle(MouthPhase(ms))
  }

  /** Start and end angle of `ctx.arc`, drawn clockwise on the screen. */
  datatype Arc = Arc(start: real, end: real)

  /** The angles passed to `ctx.arc` for the body: symmetric about PI when
      moving right, about 0 (taken modulo 2 * PI) when moving left. */
  function MouthArc(left: bool, a: real): (r: Arc)
    ensures r.start + r.end == 2.0 * PI
    ensures left ==> r.end - r.start + 2.0 * PI == 2.0 * a
    ensures !left ==> r.end - r.start == 2.0 * a
  {
    if left then Arc(2.0 * PI - a, a) else Arc(PI - a, PI + a)
  }

  /** At half-angle PI (when `ms % 500 == 0`) the left-moving call passes the
      same start and end angle, while the right-moving call passes a start and
      an end exactly 2 * PI apart. */
  lemma MouthArcAtHalfAnglePi()
    ensures MouthArc(true, PI).start == MouthArc(true, PI).end == PI
    ensures MouthArc(false, PI) == Arc(0.0, 2.0 * PI)
  {
  }

  /** The arc used when moving left is the other one reflected in the vertical
      axis (the angle t becomes PI - t, taken modulo 2 * PI). */
  lemma MouthArcMirrored(a: real)
    ensures MouthArc(true, a).start == 2.0 * PI + (PI - MouthArc(false, a).end)
    ensures MouthArc(true, a).end == PI - MouthArc(false, a).start
  {
  }

  /** The point the second `lineTo` of `drawShape` goes to, after the first
      one went back to the centre. */
  function MouthEdge(left: bool, a: real, m: MathLib): Vec
  {
    if left then
      Vec(CENTRE - m.cos(PI - a) * RADIUS, CENTRE - m.sin(PI - a) * RADIUS)
    else
      Vec(CENTRE + m.cos(PI - a) * RADIUS, CENTRE + m.sin(PI - a) * RADIUS)
  }

  /** The two mouth edges are reflections of each other through the centre. */
  lemma MouthEdgesOpposite(a: real, m: MathLib)
    ensures MouthEdge(true, a, m).x + MouthEdge(false, a, m).x == 2.0 * CENTRE
    ensures MouthEdge(true, a, m).y + MouthEdge(false, a, m).y == 2.0 * CENTRE
  {
  }

  /** Centre of the eye (radius 2): 6 left or right of the body centre, 8 above it. */
  function EyeCentre(left: bool): (e: Vec)
    ensures e.y == CENTRE - EYE_DY
    ensures left <==> e.x < CENTRE
    ensures Square(e.x - CENTRE) + Square(e.y - CENTRE) == 100.0
  {
    if left then Vec(CENTRE - EYE_DX, CENTRE - EYE_DY) else Vec(CENTRE + EYE_DX, CENTRE - EYE_DY)
  }

  /** The eye lies wholly inside the body: its centre is 10 from the body's
      centre and 10 + 2 < 15.5. */
  lemma EyeInsideBody(left: bool)
    ensures Square(EyeCentre(left).x - CENTRE) + Square(EyeCentre(left).y - CENTRE)
            < Square(RADIUS - EYE_RADIUS)
  {
  }

  /** The CSS translation `draw` gives the canvas: `position - canvas.width / 2`. */
  function CanvasTranslate(position: Vec): (t: Vec)
    ensures t.x + CENTRE == position.x && t.y + CENTRE == position.y
  {
    Vec(position.x - CANVAS_SIDE / 2.0, position.y - CANVAS_SIDE / 2.0)
  }

  /** The numbers one call of `draw` feeds to the canvas. */
  datatype Drawing = Drawing(halfAngle: real, arc: Arc, edge: Vec, eye: Vec, translate: Vec)

  function DrawingOf(k: Kinematics, ms: nat, m: MathLib): (d: Drawing)
    ensures d.halfAngle == MouthHalfAngle(ms) && MOUTH_MIN <= d.halfAngle <= PI
    ensures d.eye == EyeCentre(MovesLeft(k.angle))
    ensures d.arc == MouthArc(MovesLeft(k.angle), d.halfAngle)
    ensures d.edge == MouthEdge(MovesLeft(k.angle), d.halfAngle, m)
    ensures MovesLeft(k.angle) <==> d.eye.x < CENTRE
    ensures d.translate.x + CENTRE == k.position.x && d.translate.y + CENTRE == k.position.y
  {
    var left := MovesLeft(k.angle);
    var a := MouthHalfAngle(ms);
    Drawing(a, MouthArc(left, a), MouthEdge(left, a, m), EyeCentre(left), CanvasTranslate(k.position))
  }

  /** `ReversePacman.Pacman.INITAL_POSITION`: one object, made once when the
      script loads, at the bottom right corner of the viewport. */
  method NewInitialPosition(vp: Viewport) returns (p: Vector2D)
    ensures fresh(p)
    ensures p.Value() == Vec(vp.width, vp.height)
  {
    p := new Vector2D(vp.width, vp.height);
  }

  class Pacman {
    var position: Vector2D
    var speed: real
    var angle: real
    var lastUpdate: Option<real>
    /** What the last `draw` fed to the canvas. */
    var drawing: Option<Drawing>

    function State(): Kinematics
      reads this, position
    {
      Kinematics(position.Value(), speed, angle, lastUpdate)
    }

    /** The position is the initial-position object itself, not a copy. */
    constructor (initialPosition: Vector2D)
      ensures position == initialPosition
      ensures speed == INITIAL_SPEED && angle == INITIAL_ANGLE
      ensures lastUpdate == None && drawing == None
    {
      position := initialPosition;
      speed := INITIAL_SPEED;
      angle := INITIAL_ANGLE;
      lastUpdate := None;
      drawing := None;
    }

    /** Steps the position object in place; the object itself stays the same. */
    method UpdatePosition(timestamp: real, vp: Viewport, m: MathLib)
      modifies this, position
      ensures position == old(position)
      ensures drawing == old(drawing)
      ensures State() == Updated(old(State()), timestamp, vp, m)
    {
      ghost var before := State();
      if lastUpdate.Some? {
        var diff := (timestamp - lastUpdate.value) / 1000.0;
        ghost var stepped := Advanced(before, diff, m);
        position.x := position.x + m.cos(angle) * speed * diff;
        position.y := position.y - m.sin(angle) * speed * diff;
        assert position.Value() == stepped;
        position.x := Clamp(position.x, vp.width);
        position.y := Clamp(position.y, vp.height);
        assert position.Value() == Vec(Clamp(stepped.x, vp.width), Clamp(stepped.y, vp.height));
      }
      lastUpdate := Some(timestamp);
    }

    /** `draw()`, with the wall clock's milliseconds passed in. */
    method Draw(ms: nat, m: MathLib)
      modifies this`drawing
      ensures drawing == Some(DrawingOf(State(), ms, m))
    {
      drawing := Some(DrawingOf(State(), ms, m));
    }
  }

  /** The initial position is shared: stepping the sprite moves the object
      `INITAL_POSITION` names as well. */
  method InitialPositionIsShared(vp: Viewport, t0: real, t1: real, m: MathLib)
    returns (initial: Vector2D, pacman: Pacman)
    ensures pacman.position == initial
    ensures initial.Value() ==
      Updated(Updated(Kinematics(Vec(vp.width, vp.height), INITIAL_SPEED, INITIAL_ANGLE, None), t0, vp, m), t1, vp, m).position
  {
    initial := NewInitialPosition(vp);
    pacman := new Pacman(initial);
    pacman.UpdatePosition(t0, vp, m);
    pacman.UpdatePosition(t1, vp, m);
  }
}
