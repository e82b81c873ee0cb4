/** Slide 1: every polygon is rotated about its own centroid, recomputed from
    its current vertices each frame.  The rotated vertices replace the old
    ones, so the next frame rotates the already rotated polygon again. */
module Rotation {
  import opened Vertices

  /** Radians per millisecond of elapsed time. */
  const AngularVelocity: real := 0.002

  /** The rotation matrix [[cos, -sin], [sin, cos]]. */
  function Rotor(cos: real, sin: real): Linear
  {
    Linear(cos, -sin, sin, cos)
  }

  /** One frame of slide 1 for one polygon, with cos and sin of the frame's
      angle supplied by the caller.  An empty polygon stays empty (the source
      maps over the empty list and never uses its undefined centroid).  Each
      vertex is moved to the centroid's frame, turned by the rotor, moved
      back and rebuilt with w = 1. */
  function RotateAboutCentroid(vs: seq<Vertex>, cos: real, sin: real): (r: seq<Vertex>)
    ensures |r| == |vs|
    ensures forall i :: 0 <= i < |vs| ==> r[i] == About(Rotor(cos, sin), Centroid(vs), vs[i])
    ensures AllHomogeneousOne(r)
  {
    if |vs| == 0 then [] else MapAbout(Rotor(cos, sin), Centroid(vs), vs)
  }

  /** Vertex i is moved to the centroid's frame, rotated by
      (x cos - y sin, x sin + y cos), moved back, and rebuilt with w = 1. */
  lemma RotateFormula(vs: seq<Vertex>, cos: real, sin: real, i: int)
    requires 0 <= i < |vs|
    ensures var c := Centroid(vs);
            var u := RotateAboutCentroid(vs, cos, sin)[i];
            && u.x == (vs[i].x - c.x) * cos - (vs[i].y - c.y) * sin + c.x
            && u.y == (vs[i].x - c.x) * sin + (vs[i].y - c.y) * cos + c.y
            && u.w == 1.0
  {
    var c := Centroid(vs);
    RotateVertex(cos, sin, c, vs[i], RotateAboutCentroid(vs, cos, sin)[i]);
  }

  lemma RotateVertex(cos: real, sin: real, c: Point, v: Vertex, u: Vertex)
    requires u == About(Rotor(cos, sin), c, v)
    ensures u.x == (v.x - c.x) * cos - (v.y - c.y) * sin + c.x
    ensures u.y == (v.x - c.x) * sin + (v.y - c.y) * cos + c.y
  {
    AboutUnfold(Rotor(cos, sin), c, v);
    RotorRows(cos, sin, v.x - c.x, v.y - c.y);
  }

  lemma RotorRows(cos: real, sin: real, dx: real, dy: real)
    ensures Row(Rotor(cos, sin).a, Rotor(cos, sin).b, dx, dy) == dx * cos - dy * sin
    ensures Row(Rotor(cos, sin).c, Rotor(cos, sin).d, dx, dy) == dx * sin + dy * cos
  {
  }

  /** The rotation keeps the vertex count, sets every w to 1 and leaves the
      centroid where it was. */
  lemma RotateKeepsCentroid(vs: seq<Vertex>, cos: real, sin: real)
    requires |vs| > 0
    ensures |RotateAboutCentroid(vs, cos, sin)| == |vs|
    ensures AllHomogeneousOne(RotateAboutCentroid(vs, cos, sin))
    ensures Centroid(RotateAboutCentroid(vs, cos, sin)) == Centroid(vs)
  {
    MapAboutKeepsCentroid(Rotor(cos, sin), vs);
  }

  /** Two frames of rotation compound: rotating by angle a and then by angle
      b is rotating once by a + b, written with the angle-addition formulas
      for cos(a + b) and sin(a + b). */
  lemma RotateTwice(vs: seq<Vertex>, cos1: real, sin1: real, cos2: real, sin2: real)
    ensures RotateAboutCentroid(RotateAboutCentroid(vs, cos1, sin1), cos2, sin2)
         == RotateAboutCentroid(vs, cos1 * cos2 - sin1 * sin2, sin1 * cos2 + cos1 * sin2)
  {
    if |vs| > 0 {
      var c := Centroid(vs);
      RotateKeepsCentroid(vs, cos1, sin1);
      MapAboutThen(Rotor(cos1, sin1), Rotor(cos2, sin2), c, vs);
      RotorsCompose(cos1, sin1, cos2, sin2);
    }
  }

  lemma RotorsCompose(cos1: real, sin1: real, cos2: real, sin2: real)
    ensures Then(Rotor(cos1, sin1), Rotor(cos2, sin2))
         == Rotor(cos1 * cos2 - sin1 * sin2, sin1 * cos2 + cos1 * sin2)
  {
  }

  /** cos and sin of one and the same angle. */
  predicate OnUnitCircle(cos: real, sin: real)
  {
    cos * cos + sin * sin == 1.0
  }

  /** Rotating by an angle and then by its opposite restores a polygon whose
      vertices all have w = 1. */
  lemma RotateThenUnrotate(vs: seq<Vertex>, cos: real, sin: real)
    requires OnUnitCircle(cos, sin)
    requires AllHomogeneousOne(vs)
    ensures RotateAboutCentroid(RotateAboutCentroid(vs, cos, sin), cos, -sin) == vs
  {
    if |vs| > 0 {
      var c := Centroid(vs);
      RotateKeepsCentroid(vs, cos, sin);
      MapAboutThen(Rotor(cos, sin), Rotor(cos, -sin), c, vs);
      RotorInverse(cos, sin);
      MapAboutIdentity(c, vs);
    }
  }

  /** The rotor of the opposite angle undoes the rotor. */
  lemma RotorInverse(cos: real, sin: real)
    requires OnUnitCircle(cos, sin)
    ensures Then(Rotor(cos, sin), Rotor(cos, -sin)) == Identity
  {
  }

  /** The rotation by angle zero (cos 1, sin 0) changes nothing on vertices
      whose w is already 1. */
  lemma RotateByZero(vs: seq<Vertex>, cos: real, sin: real)
    requires cos == 1.0 && sin == 0.0
    requires AllHomogeneousOne(vs)
    ensures RotateAboutCentroid(vs, cos, sin) == vs
  {
    if |vs| > 0 {
      assert Rotor(cos, sin) == Identity;
      MapAboutIdentity(Centroid(vs), vs);
    }
  }
}
