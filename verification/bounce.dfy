/** The bouncing ball of slide 0: position integrates velocity once per frame
    and a velocity component changes sign when the moved ball pokes out of
    the canvas on that axis.  The overshoot is never corrected. */
module Bounce {
  import opened Vertices
  import opened Surface

  datatype Ball = Ball(position: Point, velocity: Point, radius: real)

  const InitialSpeedX: real := 5.0
  const InitialSpeedY: real := 2.0
  const InitialRadius: real := 50.0

  function Abs(x: real): real
  {
    if x < 0.0 then -x else x
  }

  /** The ball centred at pos with the given radius sticks out of [0, extent]. */
  predicate Escapes(pos: real, radius: real, extent: real)
  {
    pos + radius > extent || pos - radius < 0.0
  }

  /** The ball the renderer constructs: centred on the canvas, velocity
      (5, 2), radius 50. */
  function Initial(cv: Canvas): (b: Ball)
    ensures b.position.x * 2.0 == cv.width as real && b.position.y * 2.0 == cv.height as real
    ensures b.velocity == Point(InitialSpeedX, InitialSpeedY) && b.radius == InitialRadius
  {
    Ball(Point(cv.width as real / 2.0, cv.height as real / 2.0),
         Point(InitialSpeedX, InitialSpeedY), InitialRadius)
  }

  /** Reflects one velocity component if the moved ball escapes on that axis. */
  function Reflect(v: real, pos: real, radius: real, extent: real): real
  {
    if Escapes(pos, radius, extent) then -v else v
  }

  /** One frame of slide 0's update. */
  function Step(b: Ball, cv: Canvas): (r: Ball)
    ensures r.position.x == b.position.x + b.velocity.x
    ensures r.position.y == b.position.y + b.velocity.y
    ensures r.radius == b.radius
    ensures Escapes(r.position.x, b.radius, cv.width as real) ==> r.velocity.x == -b.velocity.x
    ensures !Escapes(r.position.x, b.radius, cv.width as real) ==> r.velocity.x == b.velocity.x
    ensures Escapes(r.position.y, b.radius, cv.height as real) ==> r.velocity.y == -b.velocity.y
    ensures !Escapes(r.position.y, b.radius, cv.height as real) ==> r.velocity.y == b.velocity.y
    ensures Abs(r.velocity.x) == Abs(b.velocity.x) && Abs(r.velocity.y) == Abs(b.velocity.y)
  {
    var p := Point(b.position.x + b.velocity.x, b.position.y + b.velocity.y);
    Ball(p,
         Point(Reflect(b.velocity.x, p.x, b.radius, cv.width as real),
               Reflect(b.velocity.y, p.y, b.radius, cv.height as real)),
         b.radius)
  }

  /** n frames of slide 0's update. */
  function Steps(b: Ball, cv: Canvas, n: nat): Ball
    decreases n
  {
    if n == 0 then b else Steps(Step(b, cv), cv, n - 1)
  }

  /** On one axis: the ball is at most one velocity step past either border,
      and when it is past a border it is already heading back. */
  predicate Within(pos: real, v: real, radius: real, extent: real)
  {
    && radius - Abs(v) <= pos <= extent - radius + Abs(v)
    && (pos > extent - radius ==> v < 0.0)
    && (pos < radius ==> v > 0.0)
  }

  predicate InCanvas(b: Ball, cv: Canvas)
  {
    && Within(b.position.x, b.velocity.x, b.radius, cv.width as real)
    && Within(b.position.y, b.velocity.y, b.radius, cv.height as real)
  }

  /** Within is kept by one axis of Step, whatever the extent. */
  lemma WithinStep(pos: real, v: real, radius: real, extent: real)
    requires Within(pos, v, radius, extent)
    ensures Within(pos + v, Reflect(v, pos + v, radius, extent), radius, extent)
  {
  }

  lemma StepKeepsInCanvas(b: Ball, cv: Canvas)
    requires InCanvas(b, cv)
    ensures InCanvas(Step(b, cv), cv)
  {
    WithinStep(b.position.x, b.velocity.x, b.radius, cv.width as real);
    WithinStep(b.position.y, b.velocity.y, b.radius, cv.height as real);
  }

  /** The constructed ball starts inside a canvas at least as large as its
      diameter. */
  lemma InitialInCanvas(cv: Canvas)
    requires cv.width as real >= 2.0 * InitialRadius && cv.height as real >= 2.0 * InitialRadius
    ensures InCanvas(Initial(cv), cv)
  {
  }

  /** Any number of frames keeps the ball in the canvas and keeps its speed
      on each axis and its radius. */
  lemma {:induction false} StepsKeepInCanvas(b: Ball, cv: Canvas, n: nat)
    requires InCanvas(b, cv)
    ensures InCanvas(Steps(b, cv, n), cv)
    ensures Abs(Steps(b, cv, n).velocity.x) == Abs(b.velocity.x)
    ensures Abs(Steps(b, cv, n).velocity.y) == Abs(b.velocity.y)
    ensures Steps(b, cv, n).radius == b.radius
    decreases n
  {
    if n > 0 {
      StepKeepsInCanvas(b, cv);
      StepsKeepInCanvas(Step(b, cv), cv, n - 1);
    }
  }
}
