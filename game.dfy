/** The game controller (game.js): the pointer position, the two input
    handlers and the per-frame step that chases, draws and reschedules. */
module Game {
  import opened Host
  import opened Vectors
  import opened Sprite

  /** The pellet is 16 by 16 and is centred on the pointer. */
  const PELLET_OFFSET: real := 8.0
  /** The chase ends when Pacman is closer than this to the pointer. */
  const CATCH_DISTANCE: real := 2.0

  /** Everything a frame or an input event reads or writes, as a value.
      `framesRequested` counts calls of `requestAnimationFrame`, `navigations`
      the assignments to `location.href`, `listeners` the event listeners the
      game has registered on the window. */
  datatype GameState = GameState(
    mouse: Vec,
    sprite: Kinematics,
    drawing: Option<Drawing>,
    pellet: Option<Vec>,
    framesRequested: nat,
    navigations: nat,
    listeners: nat)

  /** The state right after construction. */
  function Initial(initialPosition: Vec): (s: GameState)
    ensures s.mouse == Vec(0.0, 0.0)
    ensures s.sprite.position == initialPosition && s.sprite.lastUpdate == None
    ensures s.sprite == Kinematics(initialPosition, INITIAL_SPEED, INITIAL_ANGLE, None)
    ensures s.pellet == None && s.drawing == None
    ensures s.framesRequested == 0 && s.navigations == 0 && s.listeners == 0
  {
    GameState(Vec(0.0, 0.0), Kinematics(initialPosition, INITIAL_SPEED, INITIAL_ANGLE, None),
              None, None, 0, 0, 0)
  }

  /** `start()`: registers a bound copy of each handler. */
  function Started(s: GameState): (r: GameState)
    ensures r.listeners == s.listeners + 2
    ensures r.(listeners := s.listeners) == s
  {
    s.(listeners := s.listeners + 2)
  }

  /** A pointer moved to `p`: the target is overwritten and one frame is requested. */
  function PointerMoved(s: GameState, p: Vec): (r: GameState)
    ensures r.mouse == p
    ensures r.framesRequested == s.framesRequested + 1
    ensures r.(mouse := s.mouse, framesRequested := s.framesRequested) == s
  {
    s.(mouse := p, framesRequested := s.framesRequested + 1)
  }

  /** Two pointer events before a frame: only the last position survives, but
      both requested a frame. */
  lemma LastPointerWins(s: GameState, p: Vec, q: Vec)
    ensures PointerMoved(PointerMoved(s, p), q)
         == PointerMoved(s, q).(framesRequested := s.framesRequested + 2)
  {
  }

  /** `handleTouchMove`: reading `touches[0]` of an empty list throws before
      anything is assigned, so the state stays as it was. */
  function TouchMoved(s: GameState, touches: seq<Vec>): (r: GameState)
    ensures |touches| == 0 ==> r == s
    ensures |touches| > 0 ==> r == PointerMoved(s, touches[0])
    ensures |touches| > 0 ==> r.mouse == touches[0] && r.framesRequested == s.framesRequested + 1
  {
    if |touches| == 0 then s else PointerMoved(s, touches[0])
  }

  /** `diff` in `showFrame`: `mousePosition.difference(pacman.position)`,
      the vector from the pointer to Pacman. */
  function FrameDiff(s: GameState): (d: Vec)
    ensures s.mouse.x + d.x == s.sprite.position.x && s.mouse.y + d.y == s.sprite.position.y
  {
    s.mouse.Difference(s.sprite.position)
  }

  /** The chase is over: `diff.abs() < 2`. */
  predicate Caught(s: GameState, m: MathLib)
  {
    FrameDiff(s).Abs(m) < CATCH_DISTANCE
  }

  /** With a lawful `sqrt` the catch test is a test on the squared distance. */
  lemma CaughtIff(s: GameState, m: MathLib)
    requires Lawful(m)
    ensures Caught(s, m) <==>
      Square(s.sprite.position.x - s.mouse.x) + Square(s.sprite.position.y - s.mouse.y) < 4.0
  {
    AbsBelow(FrameDiff(s), m, CATCH_DISTANCE);
  }

  /** The sprite's new angle, `Math.atan2(-diff.y, diff.x) + Math.PI`: the
      bearing from the pointer to Pacman, turned round to face the pointer. */
  function Heading(diff: Vec, m: MathLib): real
  {
    m.atan2(-diff.y, diff.x) + PI
  }

  /** Since atan2 lies in [-PI, PI], the angle lies in [0, 2 * PI]. */
  lemma HeadingInRange(diff: Vec, m: MathLib)
    requires Lawful(m)
    ensures 0.0 <= Heading(diff, m) <= 2.0 * PI
  {
  }

  /** The pellet's CSS translation: `mousePosition - (8, 8)`. */
  function PelletTranslate(mouse: Vec): (t: Vec)
    ensures t.x + PELLET_OFFSET == mouse.x && t.y + PELLET_OFFSET == mouse.y
  {
    Vec(mouse.x - PELLET_OFFSET, mouse.y - PELLET_OFFSET)
  }

  /** `showFrame(timestamp)` with the wall clock's milliseconds `ms` and the
      viewport passed in. The listener removals are no-ops, so on the terminal
      path only the navigation is recorded; otherwise the pellet moves, the
      sprite turns, steps and is drawn, and one more frame is requested. */
  function FrameShown(s: GameState, timestamp: real, ms: nat, vp: Viewport, m: MathLib): (r: GameState)
    ensures r.mouse == s.mouse && r.listeners == s.listeners
    ensures Caught(s, m) ==> r == s.(navigations := s.navigations + 1)
    ensures !Caught(s, m) ==>
      && r.navigations == s.navigations
      && r.framesRequested == s.framesRequested + 1
      && r.pellet == Some(PelletTranslate(s.mouse))
      && r.sprite == Updated(s.sprite.(angle := Heading(FrameDiff(s), m)), timestamp, vp, m)
      && r.drawing == Some(DrawingOf(r.sprite, ms, m))
  {
    if Caught(s, m) then
      s.(navigations := s.navigations + 1)
    else
      var sprite := Updated(s.sprite.(angle := Heading(FrameDiff(s), m)), timestamp, vp, m);
      s.(pellet := Some(PelletTranslate(s.mouse)),
         sprite := sprite,
         drawing := Some(DrawingOf(sprite, ms, m)),
         framesRequested := s.framesRequested + 1)
  }

  /** A frame that does not end the chase leaves the sprite facing a direction
      in [0, 2 * PI] and keeps its speed. */
  lemma FrameAngleInRange(s: GameState, timestamp: real, ms: nat, vp: Viewport, m: MathLib)
    requires Lawful(m) && !Caught(s, m)
    ensures 0.0 <= FrameShown(s, timestamp, ms, vp, m).sprite.angle <= 2.0 * PI
    ensures FrameShown(s, timestamp, ms, vp, m).sprite.speed == s.sprite.speed
  {
    HeadingInRange(FrameDiff(s), m);
  }

  /** The terminal path does not stop anything: a frame requested earlier that
      runs before the page is gone finds the same state and navigates again. */
  lemma CaughtFrameRepeats(s: GameState, t0: real, ms0: nat, t1: real, ms1: nat, vp: Viewport, m: MathLib)
    requires Caught(s, m)
    ensures FrameShown(FrameShown(s, t0, ms0, vp, m), t1, ms1, vp, m)
         == s.(navigations := s.navigations + 2)
  {
  }

  /** The listeners stay registered after the catch, so a pointer event that
      moves the pointer at least 2 pixels away from Pacman undoes it: the next
      frame does not navigate but steps the sprite and requests a frame. */
  lemma PointerMoveRestartsChase(s: GameState, t0: real, ms0: nat, p: Vec, t1: real, ms1: nat, vp: Viewport, m: MathLib)
    requires Lawful(m) && Caught(s, m)
    requires Square(s.sprite.position.x - p.x) + Square(s.sprite.position.y - p.y) >= 4.0
    ensures var after := FrameShown(PointerMoved(FrameShown(s, t0, ms0, vp, m), p), t1, ms1, vp, m);
      after.navigations == s.navigations + 1 && after.framesRequested == s.framesRequested + 2
  {
    var moved := PointerMoved(FrameShown(s, t0, ms0, vp, m), p);
    CaughtIff(moved, m);
  }

  /** What reaches the game: a handler call or an animation frame. */
  datatype Event =
    | MouseMove(clientX: real, clientY: real)
    | TouchMove(touches: seq<Vec>)
    | AnimationFrame(timestamp: real, ms: nat, viewport: Viewport)

  function Apply(s: GameState, e: Event, m: MathLib): GameState
  {
    match e
    case MouseMove(x, y) => PointerMoved(s, Vec(x, y))
    case TouchMove(touches) => TouchMoved(s, touches)
    case AnimationFrame(t, ms, vp) => FrameShown(s, t, ms, vp, m)
  }

  /** The events, in order. */
  function Run(s: GameState, events: seq<Event>, m: MathLib): GameState
    decreases |events|
  {
    if events == [] then s else Run(Apply(s, events[0], m), events[1..], m)
  }

  /** Input events that reach a handler and get past its first line. */
  function Inputs(events: seq<Event>): nat
  {
    if events == [] then 0
    else (match events[0]
          case MouseMove(_, _) => 1
          case TouchMove(touches) => if |touches| == 0 then 0 else 1
          case AnimationFrame(_, _, _) => 0)
         + Inputs(events[1..])
  }

  /** Every mouse event and every touch event that carries a touch requests a
      frame of its own: over any run the frame requests grow by at least the
      number of such events. */
  lemma {:induction false} RunRequestsFramePerInput(s: GameState, events: seq<Event>, m: MathLib)
    ensures Run(s, events, m).framesRequested >= s.framesRequested + Inputs(events)
    decreases |events|
  {
    if events != [] {
      RunRequestsFramePerInput(Apply(s, events[0], m), events[1..], m);
    }
  }

  /** No event removes a listener, changes the speed or takes back a navigation. */
  lemma {:induction false} RunKeepsListenersAndSpeed(s: GameState, events: seq<Event>, m: MathLib)
    ensures Run(s, events, m).listeners == s.listeners
    ensures Run(s, events, m).sprite.speed == s.sprite.speed
    ensures Run(s, events, m).navigations >= s.navigations
    decreases |events|
  {
    if events != [] {
      RunKeepsListenersAndSpeed(Apply(s, events[0], m), events[1..], m);
    }
  }

  /** While the viewport keeps its size, Pacman never leaves it: the first
      update does not move it and every later one clamps. */
  lemma {:induction false} RunStaysInViewport(s: GameState, events: seq<Event>, vp: Viewport, m: MathLib)
    requires 0.0 <= vp.width && 0.0 <= vp.height
    requires forall i :: 0 <= i < |events| && events[i].AnimationFrame? ==> events[i].viewport == vp
    requires InViewport(s.sprite.position, vp)
    ensures InViewport(Run(s, events, m).sprite.position, vp)
    decreases |events|
  {
    if events != [] {
      var rest := events[1..];
      assert forall i :: 0 <= i < |rest| && rest[i].AnimationFrame? ==> rest[i].viewport == vp by {
        forall i | 0 <= i < |rest| && rest[i].AnimationFrame?
          ensures rest[i].viewport == vp
        {
          assert rest[i] == events[i + 1];
        }
      }
      RunStaysInViewport(Apply(s, events[0], m), rest, vp, m);
    }
  }

  /** Pointer at (100, 100) and Pacman at (0, 0): the chase goes on, Pacman
      turns to `atan2(100, -100) + PI` and one more frame is requested. */
  lemma ChaseContinuesFarAway(s: GameState, t: real, ms: nat, vp: Viewport, m: MathLib)
    requires Lawful(m)
    requires s.mouse == Vec(100.0, 100.0) && s.sprite.position == Vec(0.0, 0.0)
    ensures !Caught(s, m)
    ensures FrameShown(s, t, ms, vp, m).sprite.angle == m.atan2(100.0, -100.0) + PI
    ensures FrameShown(s, t, ms, vp, m).framesRequested == s.framesRequested + 1
  {
    CaughtIff(s, m);
  }

  /** Pointer and Pacman both at (50, 50): the page navigates and no frame is requested. */
  lemma ChaseEndsOnTarget(s: GameState, t: real, ms: nat, vp: Viewport, m: MathLib)
    requires Lawful(m)
    requires s.mouse == Vec(50.0, 50.0) && s.sprite.position == Vec(50.0, 50.0)
    ensures Caught(s, m)
    ensures FrameShown(s, t, ms, vp, m).navigations == s.navigations + 1
    ensures FrameShown(s, t, ms, vp, m).framesRequested == s.framesRequested
  {
    CaughtIff(s, m);
  }

  /** `ReversePacman.Game`. The pellet element is reduced to its translation,
      the window to the `listeners` counter, `requestAnimationFrame` to the
      `framesRequested` counter and `location.href` to `navigations`. */
  class Game {
    var mousePosition: Vector2D
    const pacman: Pacman
    var pellet: Option<Vec>
    var framesRequested: nat
    var navigations: nat
    var listeners: nat

    /** The pointer object is not Pacman's position object. */
    ghost predicate Valid()
      reads this, pacman
    {
      mousePosition != pacman.position
    }

    function State(): GameState
      reads this, mousePosition, pacman, pacman.position
    {
      GameState(mousePosition.Value(), pacman.State(), pacman.drawing, pellet,
                framesRequested, navigations, listeners)
    }

    /** `initialPosition` is `INITAL_POSITION`, which becomes Pacman's position object. */
    constructor (initialPosition: Vector2D)
      ensures Valid() && fresh(mousePosition) && fresh(pacman)
      ensures pacman.position == initialPosition
      ensures State() == Initial(initialPosition.Value())
    {
      mousePosition := new Vector2D(0.0, 0.0);
      pacman := new Pacman(initialPosition);
      pellet := None;
      framesRequested, navigations, listeners := 0, 0, 0;
    }

    method Start()
      requires Valid()
      modifies this`listeners
      ensures Valid()
      ensures State() == Started(old(State()))
    {
      listeners := listeners + 2;
    }

    /** Overwrites the pointer object's coordinates in place. */
    method HandleMouseMove(clientX: real, clientY: real)
      requires Valid()
      modifies mousePosition, this`framesRequested
      ensures Valid() && mousePosition == old(mousePosition)
      ensures State() == PointerMoved(old(State()), Vec(clientX, clientY))
    {
      mousePosition.x := clientX;
      mousePosition.y := clientY;
      framesRequested := framesRequested + 1;
    }

    /** `thrown` when there is no `touches[0]` to read. */
    method HandleTouchMove(touches: seq<Vec>) returns (thrown: bool)
      requires Valid()
      modifies mousePosition, this`framesRequested
      ensures Valid() && mousePosition == old(mousePosition)
      ensures thrown <==> |touches| == 0
      ensures State() == TouchMoved(old(State()), touches)
    {
      if |touches| == 0 {
        return true;
      }
      mousePosition.x := touches[0].x;
      mousePosition.y := touches[0].y;
      framesRequested := framesRequested + 1;
      thrown := false;
    }

    method ShowFrame(timestamp: real, ms: nat, vp: Viewport, m: MathLib)
      requires Valid()
      modifies this, pacman, pacman.position
      ensures Valid() && mousePosition == old(mousePosition)
      ensures pacman.position == old(pacman.position)
      ensures State() == FrameShown(old(State()), timestamp, ms, vp, m)
    {
      ghost var before := State();
      var diff := mousePosition.Difference(pacman.position);
      assert diff.Value() == FrameDiff(before);
      if diff.Abs(m) < CATCH_DISTANCE {
        navigations := navigations + 1;
        return;
      }
      assert !Caught(before, m);
      pellet := Some(PelletTranslate(mousePosition.Value()));
      pacman.angle := m.atan2(-diff.y, diff.x) + PI;
      ghost var turned := before.sprite.(angle := Heading(FrameDiff(before), m));
      assert pacman.State() == turned;
      pacman.UpdatePosition(timestamp, vp, m);
      assert pacman.State() == Updated(turned, timestamp, vp, m);
      pacman.Draw(ms, m);
      assert mousePosition.Value() == before.mouse;
      framesRequested := framesRequested + 1;
    }
  }
}
