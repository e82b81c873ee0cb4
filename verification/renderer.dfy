/** The Renderer object: its state, one animation frame (clock bookkeeping,
    the per-slide update and the per-slide drawing), and the invariants a
    frame keeps.  Math.cos and Math.sin are parameters of a frame. */
module Renderer {
  import opened Vertices
  import opened Surface
  import opened FrameClock
  import opened Bounce
  import opened Rotation
  import opened Scaling
  import opened PolygonPath

  /** Everything the renderer keeps between frames.  The slide-1 and slide-2
      model lists hold each model's vertex list; slide 3 holds only the first
      model's vertices, the only ones it ever reads. */
  datatype State = State(
    canvas: Canvas,
    slide: int,
    limitFps: bool,
    fps: int,
    clock: Clock,
    ball: Ball,
    slide1: seq<seq<Vertex>>,
    slide2: seq<seq<Vertex>>,
    slide3: seq<Vertex>)

  /** The example diamond every slide starts with. */
  const Diamond: seq<Vertex> :=
    [Vertex(400.0, 150.0, 1.0), Vertex(500.0, 300.0, 1.0),
     Vertex(400.0, 450.0, 1.0), Vertex(300.0, 300.0, 1.0)]

  /** The constructor: slide 0, the clock not started, the ball centred and
      one diamond on each polygon slide. */
  function Init(canvas: Canvas, limitFps: bool, fps: int): (s: State)
    ensures s.slide == 0 && s.clock == Unstarted
    ensures s.canvas == canvas && s.limitFps == limitFps && s.fps == fps
    ensures s.ball.velocity == Point(5.0, 2.0) && s.ball.radius == 50.0
    ensures s.ball.position.x * 2.0 == canvas.width as real
    ensures s.ball.position.y * 2.0 == canvas.height as real
    ensures s.slide1 == [Diamond] && s.slide2 == [Diamond] && s.slide3 == Diamond
  {
    State(canvas, 0, limitFps, fps, Unstarted, Bounce.Initial(canvas), [Diamond], [Diamond], Diamond)
  }

  /** Every polygon the renderer keeps has w = 1 on every vertex, as built by
      the constructor and by both transforms. */
  predicate Valid(s: State)
  {
    && (forall i :: 0 <= i < |s.slide1| ==> AllHomogeneousOne(s.slide1[i]))
    && (forall i :: 0 <= i < |s.slide2| ==> AllHomogeneousOne(s.slide2[i]))
    && AllHomogeneousOne(s.slide3)
  }

  /** The rotation angle of slide 1 for a frame at elapsed time t. */
  function Angle(t: real): real
  {
    AngularVelocity * t
  }

  function RotateModels(ms: seq<seq<Vertex>>, cos: real, sin: real): (r: seq<seq<Vertex>>)
    ensures |r| == |ms|
    ensures forall i :: 0 <= i < |ms| ==> r[i] == RotateAboutCentroid(ms[i], cos, sin)
  {
    seq(|ms|, i requires 0 <= i < |ms| => RotateAboutCentroid(ms[i], cos, sin))
  }

  function ScaleModels(ms: seq<seq<Vertex>>, sine: real): (r: seq<seq<Vertex>>)
    ensures |r| == |ms|
    ensures forall i :: 0 <= i < |ms| ==> r[i] == ScaleAboutCentroid(ms[i], Factor(sine))
  {
    seq(|ms|, i requires 0 <= i < |ms| => ScaleAboutCentroid(ms[i], Factor(sine)))
  }

  /** updateTransforms(time, delta_time): only the current slide's state
      moves, and delta_time is never read. */
  function UpdateTransforms(s: State, time: real, cos: real -> real, sin: real -> real): (r: State)
    ensures r.canvas == s.canvas && r.slide == s.slide && r.clock == s.clock
    ensures r.limitFps == s.limitFps && r.fps == s.fps && r.slide3 == s.slide3
    ensures r.ball == (if s.slide == 0 then Step(s.ball, s.canvas) else s.ball)
    ensures r.slide1 == (if s.slide == 1 then RotateModels(s.slide1, cos(Angle(time)), sin(Angle(time)))
                         else s.slide1)
    ensures r.slide2 == (if s.slide == 2 then ScaleModels(s.slide2, sin(time * ScaleSpeed)) else s.slide2)
  {
    if s.slide == 0 then
      s.(ball := Step(s.ball, s.canvas))
    else if s.slide == 1 then
      s.(slide1 := RotateModels(s.slide1, cos(Angle(time)), sin(Angle(time))))
    else if s.slide == 2 then
      s.(slide2 := ScaleModels(s.slide2, sin(time * ScaleSpeed)))
    else
      s
  }

  /** A polygon's vertices handed to the path builder: none is malformed. */
  function Slots(vs: seq<Vertex>): (list: seq<Slot>)
    ensures |list| == |vs|
    ensures forall i :: 0 <= i < |vs| ==> list[i] == Present(vs[i])
  {
    seq(|vs|, i requires 0 <= i < |vs| => Present(vs[i]))
  }

  /** The path of one kept polygon. */
  function PolygonOf(vs: seq<Vertex>): seq<Command>
    requires AllHomogeneousOne(vs)
  {
    ConvexPolygonPath(Slots(vs))
  }

  /** The paths of a list of polygons, one after the other: one filled
      shape per polygon with at least one vertex. */
  function Paths(ms: seq<seq<Vertex>>): (cmds: seq<Command>)
    requires forall i :: 0 <= i < |ms| ==> AllHomogeneousOne(ms[i])
    ensures Fills(cmds) == NonEmpty(ms)
  {
    if |ms| == 0 then []
    else
      assert AllHomogeneousOne(ms[0]);
      assert NonZeroW(Slots(ms[0]));
      PathFillsOnce(Slots(ms[0]));
      FillsAppend(PolygonOf(ms[0]), Paths(ms[1..]));
      PolygonOf(ms[0]) + Paths(ms[1..])
  }

  /** The polygons are drawn in list order: the paths of a concatenation are
      the concatenation of the paths, and one polygon's paths are its own
      path. */
  lemma {:induction false} PathsAppend(a: seq<seq<Vertex>>, b: seq<seq<Vertex>>)
    requires forall i :: 0 <= i < |a| ==> AllHomogeneousOne(a[i])
    requires forall i :: 0 <= i < |b| ==> AllHomogeneousOne(b[i])
    ensures Paths(a + b) == Paths(a) + Paths(b)
    ensures |a| == 1 ==> Paths(a) == PolygonOf(a[0])
    decreases |a|
  {
    if |a| == 0 {
      assert a + b == b;
    } else {
      assert (a + b)[0] == a[0];
      assert (a + b)[1..] == a[1..] + b;
      PathsAppend(a[1..], b);
      if |a| == 1 {
        assert a[1..] == [];
      }
    }
  }

  /** How many of the polygons have at least one vertex. */
  function NonEmpty(ms: seq<seq<Vertex>>): nat
  {
    if |ms| == 0 then 0 else (if |ms[0]| > 0 then 1 else 0) + NonEmpty(ms[1..])
  }

  /** drawSlide: clear the whole canvas, then draw the current slide.  Slide
      2 clears the canvas a second time before drawing; an index outside
      0..3 draws nothing after the clear. */
  function DrawSlide(s: State): (cmds: seq<Command>)
    requires Valid(s)
    ensures |cmds| > 0 && cmds[0] == ClearRect(s.canvas.width as real, s.canvas.height as real)
    ensures s.slide == 0 ==>
              cmds[1..] == [BeginPath, Arc(s.ball.position.x, s.ball.position.y, s.ball.radius), Fill]
    ensures s.slide == 1 ==> cmds[1..] == Paths(s.slide1)
    ensures s.slide == 2 ==> |cmds| >= 2 && cmds[1] == cmds[0] && cmds[2..] == Paths(s.slide2)
    ensures s.slide == 3 ==> cmds[1..] == PolygonOf(s.slide3)
    ensures !(0 <= s.slide <= 3) ==> |cmds| == 1
  {
    var clear := ClearRect(s.canvas.width as real, s.canvas.height as real);
    [clear] +
      if s.slide == 0 then [BeginPath, Arc(s.ball.position.x, s.ball.position.y, s.ball.radius), Fill]
      else if s.slide == 1 then Paths(s.slide1)
      else if s.slide == 2 then [clear] + Paths(s.slide2)
      else if s.slide == 3 then PolygonOf(s.slide3)
      else []
  }

  /** What one animate(timestamp) call leaves behind: the new state and the
      calls made on the canvas. */
  datatype Frame = Frame(state: State, commands: seq<Command>)

  /** animate(timestamp): advance the clock, update the current slide with
      the elapsed time, draw the updated state, and remember the timestamp.
      The next frame's scheduling is not modelled. */
  function Animate(s: State, ts: real, cos: real -> real, sin: real -> real): (f: Frame)
    requires Valid(s)
    ensures f.state.clock.Running? && f.state.clock.prev == ts
    ensures f.state.clock.start == if s.clock.Running? then s.clock.start else ts
    ensures f.state.canvas == s.canvas && f.state.slide == s.slide
    ensures f.state.limitFps == s.limitFps && f.state.fps == s.fps && f.state.slide3 == s.slide3
    ensures f.state == UpdateTransforms(s, Advance(s.clock, ts).time, cos, sin).(clock := Advance(s.clock, ts).next)
    ensures Valid(f.state)
    ensures f.commands == DrawSlide(f.state)
  {
    var tick := Advance(s.clock, ts);
    var updated := UpdateTransforms(s, tick.time, cos, sin);
    UpdateKeepsValid(s, tick.time, cos, sin);
    Frame(updated.(clock := tick.next), DrawSlide(updated))
  }

  /** The constructed state is valid, and its ball starts inside a canvas at
      least as large as the ball. */
  lemma InitValid(canvas: Canvas, limitFps: bool, fps: int)
    ensures Valid(Init(canvas, limitFps, fps))
    ensures canvas.width >= 100 && canvas.height >= 100 ==> InCanvas(Init(canvas, limitFps, fps).ball, canvas)
  {
    if canvas.width >= 100 && canvas.height >= 100 {
      InitialInCanvas(canvas);
    }
  }

  /** Both transforms leave every vertex with w = 1. */
  lemma UpdateKeepsValid(s: State, time: real, cos: real -> real, sin: real -> real)
    requires Valid(s)
    ensures Valid(UpdateTransforms(s, time, cos, sin))
  {
  }

  /** A frame keeps every polygon's vertex count and centroid, and keeps the
      ball inside the canvas with its speed on each axis and its radius. */
  lemma AnimateKeepsShapes(s: State, ts: real, cos: real -> real, sin: real -> real)
    requires Valid(s)
    ensures KeepsShapes(s, Animate(s, ts, cos, sin).state)
  {
    var tick := Advance(s.clock, ts);
    UpdateKeepsShapes(s, tick.time, cos, sin);
    var u := UpdateTransforms(s, tick.time, cos, sin);
    var r := Animate(s, ts, cos, sin).state;
    assert r == u.(clock := tick.next);
    assert r.slide1 == u.slide1 && r.slide2 == u.slide2 && r.ball == u.ball && r.canvas == u.canvas;
  }

  /** What a frame keeps: the number of polygons on slides 1 and 2, every
      polygon's vertex count and centroid, the ball's speed on each axis and
      radius, and the ball's place inside the canvas. */
  predicate KeepsShapes(s: State, r: State)
  {
    && |r.slide1| == |s.slide1| && |r.slide2| == |s.slide2|
    && (forall i :: 0 <= i < |s.slide1| ==>
          |r.slide1[i]| == |s.slide1[i]|
          && (|s.slide1[i]| > 0 ==> Centroid(r.slide1[i]) == Centroid(s.slide1[i])))
    && (forall i :: 0 <= i < |s.slide2| ==>
          |r.slide2[i]| == |s.slide2[i]|
          && (|s.slide2[i]| > 0 ==> Centroid(r.slide2[i]) == Centroid(s.slide2[i])))
    && Abs(r.ball.velocity.x) == Abs(s.ball.velocity.x)
    && Abs(r.ball.velocity.y) == Abs(s.ball.velocity.y)
    && r.ball.radius == s.ball.radius
    && (InCanvas(s.ball, s.canvas) ==> InCanvas(r.ball, r.canvas))
  }

  /** The per-slide update keeps every shape, whatever the elapsed time. */
  lemma UpdateKeepsShapes(s: State, time: real, cos: real -> real, sin: real -> real)
    ensures KeepsShapes(s, UpdateTransforms(s, time, cos, sin))
  {
    var r := UpdateTransforms(s, time, cos, sin);
    if s.slide == 0 && InCanvas(s.ball, s.canvas) {
      StepKeepsInCanvas(s.ball, s.canvas);
    }
    if s.slide == 1 {
      forall i | 0 <= i < |s.slide1| && |s.slide1[i]| > 0
        ensures Centroid(r.slide1[i]) == Centroid(s.slide1[i])
      {
        RotateKeepsCentroid(s.slide1[i], cos(Angle(time)), sin(Angle(time)));
      }
    }
    if s.slide == 2 {
      forall i | 0 <= i < |s.slide2| && |s.slide2[i]| > 0
        ensures Centroid(r.slide2[i]) == Centroid(s.slide2[i])
      {
        ScaleKeepsCentroid(s.slide2[i], Factor(sin(time * ScaleSpeed)));
      }
    }
  }

  /** How many shapes a frame's drawing paints: the ball on slide 0, every
      non-empty polygon on slides 1 and 2, the first model on slide 3 and
      nothing on any other slide. */
  lemma DrawSlideFills(s: State)
    requires Valid(s)
    ensures Fills(DrawSlide(s)) ==
              if s.slide == 0 then 1
              else if s.slide == 1 then NonEmpty(s.slide1)
              else if s.slide == 2 then NonEmpty(s.slide2)
              else if s.slide == 3 then (if |s.slide3| > 0 then 1 else 0)
              else 0
  {
    var cmds := DrawSlide(s);
    var clear := cmds[0];
    FillsAppend([clear], cmds[1..]);
    assert cmds == [clear] + cmds[1..];
    if s.slide == 2 {
      FillsAppend([clear], cmds[2..]);
      assert cmds[1..] == [clear] + cmds[2..];
    } else if s.slide == 3 {
      PathFillsOnce(Slots(s.slide3));
    } else if s.slide == 0 {
      var arc := cmds[2];
      assert cmds[1..] == [BeginPath] + [arc] + [Fill];
      FillsAppend([BeginPath] + [arc], [Fill]);
      FillsAppend([BeginPath], [arc]);
      FillsOfOne(BeginPath);
      FillsOfOne(arc);
      FillsOfOne(Fill);
    }
  }

  /** The values of Math.cos and Math.sin at a, b and a + b satisfy the
      angle-addition formulas. */
  predicate AddsAngles(cos: real -> real, sin: real -> real, a: real, b: real)
  {
    && cos(a + b) == cos(a) * cos(b) - sin(a) * sin(b)
    && sin(a + b) == sin(a) * cos(b) + cos(a) * sin(b)
  }

  /** Slide 1 rotates the current vertices by the angle of the elapsed time,
      not of the frame's delta, so the angles of successive frames add up:
      two frames at elapsed times t1 and t2 turn the polygons as one frame
      at elapsed time t1 + t2 would. */
  lemma RotationAccumulates(s: State, t1: real, t2: real, cos: real -> real, sin: real -> real)
    requires s.slide == 1
    requires AddsAngles(cos, sin, Angle(t1), Angle(t2))
    ensures UpdateTransforms(UpdateTransforms(s, t1, cos, sin), t2, cos, sin).slide1
         == UpdateTransforms(s, t1 + t2, cos, sin).slide1
  {
    Slide1Update(s, t1, cos, sin);
    Slide1Update(UpdateTransforms(s, t1, cos, sin), t2, cos, sin);
    Slide1Update(s, t1 + t2, cos, sin);
    AngleOfSum(t1, t2);
    RotateModelsCompose(s.slide1, cos, sin, Angle(t1), Angle(t2));
  }

  lemma Slide1Update(s: State, t: real, cos: real -> real, sin: real -> real)
    requires s.slide == 1
    ensures UpdateTransforms(s, t, cos, sin)
         == s.(slide1 := RotateModels(s.slide1, cos(Angle(t)), sin(Angle(t))))
  {
  }

  lemma RotateModelsCompose(ms: seq<seq<Vertex>>, cos: real -> real, sin: real -> real, a: real, b: real)
    requires AddsAngles(cos, sin, a, b)
    ensures RotateModels(RotateModels(ms, cos(a), sin(a)), cos(b), sin(b))
         == RotateModels(ms, cos(a + b), sin(a + b))
  {
    var twice := RotateModels(RotateModels(ms, cos(a), sin(a)), cos(b), sin(b));
    var direct := RotateModels(ms, cos(a + b), sin(a + b));
    forall i | 0 <= i < |ms|
      ensures twice[i] == direct[i]
    {
      RotateComposes(ms[i], cos, sin, a, b);
    }
  }

  lemma AngleOfSum(t1: real, t2: real)
    ensures Angle(t1 + t2) == Angle(t1) + Angle(t2)
  {
  }

  /** RotateTwice for angles a and b whose cos and sin add up. */
  lemma RotateComposes(vs: seq<Vertex>, cos: real -> real, sin: real -> real, a: real, b: real)
    requires AddsAngles(cos, sin, a, b)
    ensures RotateAboutCentroid(RotateAboutCentroid(vs, cos(a), sin(a)), cos(b), sin(b))
         == RotateAboutCentroid(vs, cos(a + b), sin(a + b))
  {
    RotateTwice(vs, cos(a), sin(a), cos(b), sin(b));
  }

  /** Slide 2 scales the current vertices, so the factors of successive
      frames multiply. */
  lemma ScalingCompounds(s: State, t1: real, t2: real, cos: real -> real, sin: real -> real)
    requires s.slide == 2
    ensures |UpdateTransforms(UpdateTransforms(s, t1, cos, sin), t2, cos, sin).slide2| == |s.slide2|
    ensures forall i :: 0 <= i < |s.slide2| ==>
              UpdateTransforms(UpdateTransforms(s, t1, cos, sin), t2, cos, sin).slide2[i]
              == ScaleAboutCentroid(s.slide2[i], Factor(sin(t1 * ScaleSpeed)) * Factor(sin(t2 * ScaleSpeed)))
  {
    var twice := UpdateTransforms(UpdateTransforms(s, t1, cos, sin), t2, cos, sin).slide2;
    var sine1 := sin(t1 * ScaleSpeed);
    var sine2 := sin(t2 * ScaleSpeed);
    var product := Factor(sin(t1 * ScaleSpeed)) * Factor(sin(t2 * ScaleSpeed));
    assert Factor(sine1) * Factor(sine2) == product;
    Slide2Update(s, t1, cos, sin);
    Slide2Update(UpdateTransforms(s, t1, cos, sin), t2, cos, sin);
    ScaleModelsTwice(s.slide2, sine1, sine2);
    forall i | 0 <= i < |s.slide2|
      ensures twice[i] == ScaleAboutCentroid(s.slide2[i], product)
    {
      assert twice[i] == ScaleAboutCentroid(s.slide2[i], Factor(sine1) * Factor(sine2));
    }
  }

  lemma Slide2Update(s: State, t: real, cos: real -> real, sin: real -> real)
    requires s.slide == 2
    ensures UpdateTransforms(s, t, cos, sin) == s.(slide2 := ScaleModels(s.slide2, sin(t * ScaleSpeed)))
  {
  }

  lemma ScaleModelsTwice(ms: seq<seq<Vertex>>, sine1: real, sine2: real)
    ensures |ScaleModels(ScaleModels(ms, sine1), sine2)| == |ms|
    ensures forall i :: 0 <= i < |ms| ==>
              ScaleModels(ScaleModels(ms, sine1), sine2)[i] == ScaleAboutCentroid(ms[i], Factor(sine1) * Factor(sine2))
  {
    var once := ScaleModels(ms, sine1);
    var k1 := Factor(sine1);
    var k2 := Factor(sine2);
    var product := Factor(sine1) * Factor(sine2);
    assert k1 * k2 == product;
    forall i | 0 <= i < |ms|
      ensures ScaleModels(once, sine2)[i] == ScaleAboutCentroid(ms[i], product)
    {
      assert once[i] == ScaleAboutCentroid(ms[i], k1);
      ScaleTwice(ms[i], k1, k2);
      assert ScaleAboutCentroid(ms[i], k1 * k2) == ScaleAboutCentroid(ms[i], product);
    }
  }

  /** On the first frame the elapsed time is 0, so a slide-1 frame with
      cos 0 = 1 and sin 0 = 0 leaves the polygons where they are. */
  lemma FirstFrameDoesNotRotate(s: State, ts: real, cos: real -> real, sin: real -> real)
    requires Valid(s) && s.slide == 1 && s.clock == Unstarted
    requires cos(0.0) == 1.0 && sin(0.0) == 0.0
    ensures Animate(s, ts, cos, sin).state.slide1 == s.slide1
  {
    assert Angle(0.0) == 0.0;
    forall i | 0 <= i < |s.slide1|
      ensures RotateAboutCentroid(s.slide1[i], cos(Angle(0.0)), sin(Angle(0.0))) == s.slide1[i]
    {
      RotateByZero(s.slide1[i], cos(Angle(0.0)), sin(Angle(0.0)));
    }
  }
}
