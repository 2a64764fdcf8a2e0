# Reverse Pacman, modelled in Dafny

A model of the browser toy *reversePacman*: a Pacman sprite that chases the
mouse or touch position at 50 pixels per second and, once it is closer than
2 pixels, sends the page to another address. The model covers the three
script files that hold the logic:

- `vectors.dfy` (vector2D.js): `Vec`, a vector as a value, with `Difference`
  (`other - this`) and `Abs` (the Euclidean length), and the class
  `Vector2D`, the JS object whose fields the other files assign in place.
- `sprite.dfy` (pacman.js): the constants, the class `Pacman` whose
  `UpdatePosition` steps the shared position object in place, the pure
  specification `Updated` of that step, and the numbers `draw` feeds to the
  canvas (mouth half-angle, arc, mouth edge, eye centre, canvas translation).
- `game.dfy` (game.js): the class `Game` with the pointer object, the two
  input handlers and `ShowFrame`, each tied to a pure function on
  `GameState`, plus lemmas over whole runs of events.
- `host.dfy`: what the scripts take from the browser. `Math.sqrt`, `cos`,
  `sin` and `atan2` are fields of a `MathLib` value passed in as a parameter;
  `Lawful` states the only laws used (`sqrt` is the non-negative square
  root, `atan2` lies in [-PI, PI]). `Math.PI` is the constant
  3.141592653589793. `window.innerWidth`/`innerHeight` are a `Viewport`
  parameter, and the wall clock's milliseconds are an `ms` parameter.

Browser side effects are kept as counters on the game: `framesRequested`
counts `requestAnimationFrame` calls, `navigations` counts assignments to
`location.href`, `listeners` counts registered window listeners.

Three behaviours of the code are modelled as written:

- `showFrame` calls `removeEventListener` with the unbound methods, while
  `start` registered bound copies, so nothing is removed: `FrameShown` leaves
  `listeners` unchanged, and no event ever lowers it (`RunKeepsListenersAndSpeed`).
- `Pacman.position` is the `INITAL_POSITION` object itself, so stepping the
  sprite moves that "constant" too (`InitialPositionIsShared`).
- Every mouse event and every touch event that carries a touch requests a
  frame, and so does every frame that does not end the chase: over any run,
  `framesRequested` grows by at least the number of such events
  (`RunRequestsFramePerInput`). A caught state navigates again on every
  further frame (`CaughtFrameRepeats`) until an input event moves the pointer
  away; such an event restarts the chase (`PointerMoveRestartsChase`).

Further behaviours of the code that the model keeps:

- The vector `showFrame` works with is `pacman.position - mousePosition`,
  pointing from the pointer to Pacman, and the heading adds PI to its
  bearing. With the pointer at (100, 100) and Pacman at (0, 0) the new angle
  is `atan2(100, -100) + PI` (7*PI/4 with exact trigonometry).
- The mouth half-angle is PI when `ms % 500 == 0` and 2.6, the widest
  opening, when `ms % 500 == 250`. At PI the right-moving sprite's body arc
  runs from 0 to `2*PI`, a full turn, while the left-moving sprite's call
  passes equal start and end angles (PI and PI).
- A touch event without touches makes the handler throw on its first line;
  the model returns `thrown` and leaves the state as it was.
- After the catch the listeners stay registered: every further frame
  assigns `location.href` again until a pointer event moves the pointer at
  least 2 pixels away from Pacman, and the next frame then chases again.

## Model

| member | source | states |
|---|---|---|
| `Vectors.Vec.Difference` | vector2D.js:31-33 | the result added to `this` gives `other`, on both axes |
| `Vectors.Vec.SquaredLength` | vector2D.js:42 | `x*x + y*y` is never negative |
| `Vectors.Vec.Abs` | vector2D.js:41-43 | with a lawful `sqrt`, the length is non-negative and its square is `x*x + y*y` |
| `Vectors.DifferenceWithSelf` | vector2D.js:32 | `a.difference(a)` is the zero vector |
| `Vectors.DifferenceAntisymmetric` | vector2D.js:32 | swapping the operands negates the difference |
| `Vectors.AbsZeroIff` | vector2D.js:42 | the length is 0 exactly for the zero vector |
| `Vectors.AbsBelow` | vector2D.js:42 | the length is below a bound `b >= 0` iff `x*x + y*y < b*b` |
| `Vectors.Vector2D.constructor` | vector2D.js:12-22 | the new object holds exactly the given `x` and `y` |
| `Vectors.Vector2D.Difference` | vector2D.js:31-33 | returns a freshly allocated vector whose value is `other - this`; neither operand changes |
| `Vectors.Vector2D.Abs` | vector2D.js:41-43 | with a lawful `sqrt`, the length is non-negative and its square is `x*x + y*y` of the object's current fields |
| `Sprite.Clamp` | pacman.js:83-85 | `min(max(0, v), bound)` is at most `bound`, at least 0 when `bound >= 0`, `v` itself when in range, and exactly 0 or `bound` when `v` is out of range |
| `Sprite.Updated` | pacman.js:76-88 | (with its Euler step `Sprite.Advanced`, pacman.js:79-81) speed and angle are kept and `lastUpdate` becomes the timestamp; the first call leaves the position alone; later calls clamp the Euler step `x + cos(angle)*speed*dt`, `y - sin(angle)*speed*dt` with `dt = (timestamp - lastUpdate)/1000`, which lands inside a non-negative viewport |
| `Sprite.SecondUpdateInViewport` | pacman.js:76-88 | two updates in a row always end inside the second update's viewport |
| `Sprite.MovesLeftBoundaries` | pacman.js:108-110 | `Sprite.MovesLeft` is `PI/2 < angle < 3*PI/2`; exactly PI/2 and 3*PI/2 do not count as moving left; the initial angle 3*PI/4 does |
| `Sprite.MouthPhase` | pacman.js:130 | `abs(ms % 500 - 250)` lies in [0, 250], is 250 exactly when `ms % 500 == 0` and 0 exactly when `ms % 500 == 250` |
| `Sprite.MouthPhasePeriodic` | pacman.js:130 | the phase repeats every 500 ms |
| `Sprite.HalfAngleMonotonic` | pacman.js:128-131 | `Sprite.HalfAngle`, the half-angle as a function of the phase, grows with the phase |
| `Sprite.MouthHalfAngle` | pacman.js:128-131 | `HalfAngle` of `MouthPhase(ms)` lies in [2.6, PI], is PI when `ms % 500 == 0` and 2.6 when `ms % 500 == 250` |
| `Sprite.MouthArc` | pacman.js:134-142 | the start and end angles passed to `arc` always add up to `2*PI`; moving right the end exceeds the start by `2*a`, moving left by `2*a - 2*PI` |
| `Sprite.MouthArcAtHalfAnglePi` | pacman.js:128-142 | at half-angle PI the left-moving call passes start and end both equal to PI, the right-moving call 0 and `2*PI` |
| `Sprite.MouthArcMirrored` | pacman.js:134-142 | the left-moving arc is the right-moving one reflected in the vertical axis |
| `Sprite.MouthEdgesOpposite` | pacman.js:137-146 | of `Sprite.MouthEdge`, the point `centre - radius*(cos(PI - a), sin(PI - a))` moving left and `centre + radius*(cos(PI - a), sin(PI - a))` moving right, passed to the second `lineTo`: the two mouth edge points are reflections of each other through the body centre |
| `Sprite.EyeCentre` | pacman.js:163-171 | the eye is 8 above the centre, left of it exactly when moving left, at distance 10 from it |
| `Sprite.EyeInsideBody` | pacman.js:163-171 | the eye (radius 2) lies wholly inside the body (radius 15.5) |
| `Sprite.CanvasTranslate` | pacman.js:99-101 | the translation plus the body centre `radius + 1` is the position, so the body is drawn centred on the position |
| `Sprite.DrawingOf` | pacman.js:94-102 | one `draw` uses the half-angle `MouthHalfAngle(ms)` (in [2.6, PI]), the arc and mouth edge for the current direction, the eye `EyeCentre` for the current direction (left of centre exactly when moving left) and a translation centring the body on the position |
| `Sprite.NewInitialPosition` | pacman.js:48-49 | `INITAL_POSITION` is one new object at (innerWidth, innerHeight) |
| `Sprite.Pacman.constructor` | pacman.js:13-42 | the position is the given initial-position object itself; speed 50, angle 3*PI/4, no timestamp yet |
| `Sprite.Pacman.UpdatePosition` | pacman.js:76-88 | the state after the call is `Updated` of the state before; the position object is mutated, not replaced |
| `Sprite.Pacman.Draw` | pacman.js:94-102 | records `DrawingOf` the current state and changes nothing else |
| `Sprite.InitialPositionIsShared` | pacman.js:26-49 | after two steps the `INITAL_POSITION` object holds the sprite's stepped position |
| `Game.Initial` | game.js:14-34 | the pointer starts at (0, 0), the sprite at the initial position with speed 50, angle 3*PI/4 and no timestamp, no pellet placed and nothing drawn; nothing is requested, navigated or registered |
| `Game.Started` | game.js:43-46 | `start` registers two listeners and changes nothing else |
| `Game.PointerMoved` | game.js:54-58 | the pointer becomes the event position, one frame is requested, nothing else changes |
| `Game.LastPointerWins` | game.js:54-58 | of two pointer events only the last position survives, but both requested a frame |
| `Game.TouchMoved` | game.js:66-71 | with a first touch the result is exactly `PointerMoved` with that touch (pointer moved, one frame requested, nothing else changed); with none the state is unchanged |
| `Game.FrameDiff` | game.js:81 | the frame's vector added to the pointer gives Pacman's position |
| `Game.CaughtIff` | game.js:81-82 | `Game.Caught`, the test `diff.abs() < 2`: the chase ends exactly when the squared pointer-to-Pacman distance is below 4 |
| `Game.HeadingInRange` | game.js:95 | `Game.Heading`, the new angle `atan2(-diff.y, diff.x) + PI` lies in [0, 2*PI] |
| `Game.PelletTranslate` | game.js:91-92 | the pellet translation is the pointer minus (8, 8) |
| `Game.FrameShown` | game.js:80-100 | when caught, only the navigation counter moves (listeners stay, no frame is requested, sprite and pellet untouched); otherwise the pellet is placed, the sprite turned to the heading, stepped with `Updated`, drawn, and exactly one frame requested |
| `Game.FrameAngleInRange` | game.js:95-96 | after a frame that does not end the chase, the sprite's angle lies in [0, 2*PI] and its speed is unchanged |
| `Game.CaughtFrameRepeats` | game.js:82-88 | a caught state stays caught: a second frame navigates again |
| `Game.PointerMoveRestartsChase` | game.js:54-99 | after a catch, a frame, then a pointer event at least 2 pixels from Pacman, the next frame does not navigate and requests a frame: one navigation and two frame requests in all |
| `Game.RunRequestsFramePerInput` | game.js:54-99 | over any run of events at least one frame is requested per mouse event and per touch event that carries a touch |
| `Game.RunKeepsListenersAndSpeed` | game.js:83-84 | no event removes a listener, changes the speed or lowers the navigation count |
| `Game.RunStaysInViewport` | game.js:96 | while the viewport keeps its size, Pacman never leaves it |
| `Game.ChaseContinuesFarAway` | game.js:80-99 | pointer at (100, 100), Pacman at (0, 0): the chase continues, the angle is `atan2(100, -100) + PI`, one frame is requested |
| `Game.ChaseEndsOnTarget` | game.js:80-88 | pointer and Pacman both at (50, 50): one navigation and no frame request |
| `Game.Game.constructor` | game.js:14-34 | a fresh pointer object at (0, 0), a fresh sprite whose position is the initial-position object, the state `Initial` |
| `Game.Game.Start` | game.js:43-46 | keeps the pointer object distinct from Pacman's position; the state after is `Started` of the state before |
| `Game.Game.HandleMouseMove` | game.js:54-58 | overwrites the pointer object in place; the state after is `PointerMoved` of the state before |
| `Game.Game.HandleTouchMove` | game.js:66-71 | throws exactly when there is no first touch; the state after is `TouchMoved` of the state before |
| `Game.Game.ShowFrame` | game.js:80-100 | the pointer and Pacman's position object stay the same objects (mutated in place, not replaced); the state after is `FrameShown` of the state before |

## Left out

- throttle.js: it republishes the window's `resize` event through `requestAnimationFrame` and is not used by the sprite logic; it is not part of this model.
- Canvas and CSS side effects (`clearRect`, `beginPath`, `arc`, `lineTo`, `fill`, `stroke`, styles, the `translate(...)` strings): only the numbers fed into them are modelled. The first `lineTo` of the left-moving branch passes `(y, x)`; both equal `radius + 1`, so it is the centre in either branch and is not recorded.
- `document.getElementById`, the `ctx` field and the canvas and pellet elements: the model has no DOM.
- `requestAnimationFrame` scheduling: requests are counted, but the queue of pending callbacks and their order are not modelled; `Run` takes the events in whatever order the browser delivers them.
- `preventDefault` on touch events and the page unload that follows `location.href`.
- Floating point: numbers are exact reals, so rounding, NaN and infinities are not modelled, and `Math.PI` is its decimal value.
- MouthArc: only the start and end angles handed to `ctx.arc` are modelled; how the canvas turns them into a swept region is not.
- `Math.cos`, `Math.sin`, `Math.atan2`, `Math.sqrt`: host functions passed in; no trigonometric identity is used or proved.
- The wall clock (`new Date().getMilliseconds()`) and the viewport size are parameters.
