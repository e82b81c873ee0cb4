/** Homogeneous 2D vertices, their centroid, and linear maps applied about a
    centre point: the arithmetic shared by the rotating and scaling slides. */
module Vertices {

  /** A vertex (x, y, w): the entries values[0][0], values[1][0], values[2][0]
      of a 3x1 column matrix. */
  datatype Vertex = Vertex(x: real, y: real, w: real)

  /** A plain 2D point: a centroid, a ball position or a ball velocity. */
  datatype Point = Point(x: real, y: real)

  /** Sum of the x coordinates, ignoring w. */
  function SumX(vs: seq<Vertex>): real
  {
    if |vs| == 0 then 0.0 else vs[0].x + SumX(vs[1..])
  }

  /** Sum of the y coordinates, ignoring w. */
  function SumY(vs: seq<Vertex>): real
  {
    if |vs| == 0 then 0.0 else vs[0].y + SumY(vs[1..])
  }

  /** The centroid used by the slides: the mean of x and of y over the list
      (w is not divided out). */
  function Centroid(vs: seq<Vertex>): (c: Point)
    requires |vs| > 0
    ensures c.x * (|vs| as real) == SumX(vs)
    ensures c.y * (|vs| as real) == SumY(vs)
  {
    Point(SumX(vs) / (|vs| as real), SumY(vs) / (|vs| as real))
  }

  predicate AllHomogeneousOne(vs: seq<Vertex>)
  {
    forall i :: 0 <= i < |vs| ==> vs[i].w == 1.0
  }

  /** A 2x2 linear map [[a, b], [c, d]] acting on offsets from a centre. */
  datatype Linear = Linear(a: real, b: real, c: real, d: real)

  const Identity: Linear := Linear(1.0, 0.0, 0.0, 1.0)

  /** The matrix product m2 * m1: apply m1 first, then m2. */
  function Then(m1: Linear, m2: Linear): Linear
  {
    Linear(m2.a * m1.a + m2.b * m1.c, m2.a * m1.b + m2.b * m1.d,
           m2.c * m1.a + m2.d * m1.c, m2.c * m1.b + m2.d * m1.d)
  }

  /** One row (a, b) of a linear map applied to the offset (dx, dy). */
  function Row(a: real, b: real, dx: real, dy: real): real
  {
    a * dx + b * dy
  }

  /** Translate v by -p, apply m, translate back by +p, and rebuild the
      vertex with w = 1. */
  function About(m: Linear, p: Point, v: Vertex): Vertex
  {
    Vertex(Row(m.a, m.b, v.x - p.x, v.y - p.y) + p.x,
           Row(m.c, m.d, v.x - p.x, v.y - p.y) + p.y,
           1.0)
  }

  /** About applied to every vertex of the list, in order: the i-th vertex
      of the result is the i-th vertex mapped, and every result has w = 1. */
  function MapAbout(m: Linear, p: Point, vs: seq<Vertex>): (r: seq<Vertex>)
    ensures |r| == |vs|
    ensures forall i :: 0 <= i < |vs| ==> r[i] == About(m, p, vs[i])
    ensures AllHomogeneousOne(r)
  {
    if |vs| == 0 then [] else [About(m, p, vs[0])] + MapAbout(m, p, vs[1..])
  }

  /** Sum of the x offsets from p. */
  function SumDX(vs: seq<Vertex>, p: Point): real
  {
    if |vs| == 0 then 0.0 else (vs[0].x - p.x) + SumDX(vs[1..], p)
  }

  /** Sum of the y offsets from p. */
  function SumDY(vs: seq<Vertex>, p: Point): real
  {
    if |vs| == 0 then 0.0 else (vs[0].y - p.y) + SumDY(vs[1..], p)
  }

  lemma {:induction false} SumDXIsShiftedSum(vs: seq<Vertex>, p: Point)
    ensures SumDX(vs, p) == SumX(vs) - (|vs| as real) * p.x
  {
    if |vs| > 0 {
      SumDXIsShiftedSum(vs[1..], p);
      ShiftStep(vs[0].x, SumX(vs[1..]), p.x, (|vs| - 1) as real);
    }
  }

  lemma {:induction false} SumDYIsShiftedSum(vs: seq<Vertex>, p: Point)
    ensures SumDY(vs, p) == SumY(vs) - (|vs| as real) * p.y
  {
    if |vs| > 0 {
      SumDYIsShiftedSum(vs[1..], p);
      ShiftStep(vs[0].y, SumY(vs[1..]), p.y, (|vs| - 1) as real);
    }
  }

  lemma ShiftStep(x0: real, rest: real, q: real, n: real)
    ensures (x0 - q) + (rest - n * q) == (x0 + rest) - (n + 1.0) * q
  {
  }

  /** Offsets from the centroid sum to zero. */
  lemma CentroidOffsetsVanish(vs: seq<Vertex>)
    requires |vs| > 0
    ensures SumDX(vs, Centroid(vs)) == 0.0 && SumDY(vs, Centroid(vs)) == 0.0
  {
    SumDXIsShiftedSum(vs, Centroid(vs));
    SumDYIsShiftedSum(vs, Centroid(vs));
  }

  /** Sum over the list of one row (a, b) applied to each offset from p. */
  function SumRow(a: real, b: real, vs: seq<Vertex>, p: Point): real
  {
    if |vs| == 0 then 0.0 else Row(a, b, vs[0].x - p.x, vs[0].y - p.y) + SumRow(a, b, vs[1..], p)
  }

  lemma {:induction false} SumRowIsLinear(a: real, b: real, vs: seq<Vertex>, p: Point)
    ensures SumRow(a, b, vs, p) == a * SumDX(vs, p) + b * SumDY(vs, p)
  {
    if |vs| == 0 {
      ZeroRow(a, b);
    } else {
      SumRowIsLinear(a, b, vs[1..], p);
      LinearStep(a, b, vs[0].x - p.x, vs[0].y - p.y, SumDX(vs[1..], p), SumDY(vs[1..], p),
                 SumRow(a, b, vs[1..], p), SumDX(vs, p), SumDY(vs, p));
    }
  }

  lemma ZeroRow(a: real, b: real)
    ensures 0.0 == a * 0.0 + b * 0.0
  {
  }

  /** One induction step of SumRowIsLinear over plain numbers. */
  lemma LinearStep(a: real, b: real, dx: real, dy: real, ex: real, ey: real,
                   rest: real, sx: real, sy: real)
    requires rest == a * ex + b * ey
    requires sx == dx + ex && sy == dy + ey
    ensures Row(a, b, dx, dy) + rest == a * sx + b * sy
  {
  }

  lemma {:induction false} MapAboutSumDX(m: Linear, p: Point, vs: seq<Vertex>)
    ensures SumDX(MapAbout(m, p, vs), p) == SumRow(m.a, m.b, vs, p)
  {
    if |vs| > 0 {
      var h := About(m, p, vs[0]);
      var t := MapAbout(m, p, vs[1..]);
      MapAboutSumDX(m, p, vs[1..]);
      assert MapAbout(m, p, vs) == [h] + t;
      assert ([h] + t)[1..] == t;
      assert SumDX([h] + t, p) == (h.x - p.x) + SumDX(t, p);
    }
  }

  lemma {:induction false} MapAboutSumDY(m: Linear, p: Point, vs: seq<Vertex>)
    ensures SumDY(MapAbout(m, p, vs), p) == SumRow(m.c, m.d, vs, p)
  {
    if |vs| > 0 {
      var h := About(m, p, vs[0]);
      var t := MapAbout(m, p, vs[1..]);
      MapAboutSumDY(m, p, vs[1..]);
      assert MapAbout(m, p, vs) == [h] + t;
      assert ([h] + t)[1..] == t;
      assert SumDY([h] + t, p) == (h.y - p.y) + SumDY(t, p);
    }
  }

  /** Mapping about p acts linearly on the summed offsets from p. */
  lemma MapAboutOffsets(m: Linear, p: Point, vs: seq<Vertex>)
    ensures SumDX(MapAbout(m, p, vs), p) == m.a * SumDX(vs, p) + m.b * SumDY(vs, p)
    ensures SumDY(MapAbout(m, p, vs), p) == m.c * SumDX(vs, p) + m.d * SumDY(vs, p)
  {
    MapAboutSumDX(m, p, vs);
    MapAboutSumDY(m, p, vs);
    SumRowIsLinear(m.a, m.b, vs, p);
    SumRowIsLinear(m.c, m.d, vs, p);
  }

  /** A point from which the offsets sum to zero is the centroid. */
  lemma CentroidFromOffsets(vs: seq<Vertex>, c: Point)
    requires |vs| > 0
    requires SumDX(vs, c) == 0.0 && SumDY(vs, c) == 0.0
    ensures Centroid(vs) == c
  {
    SumDXIsShiftedSum(vs, c);
    SumDYIsShiftedSum(vs, c);
    MeanOfShift(SumX(vs), c.x, |vs| as real);
    MeanOfShift(SumY(vs), c.y, |vs| as real);
  }

  lemma MeanOfShift(s: real, q: real, n: real)
    requires n > 0.0 && s - n * q == 0.0
    ensures s / n == q
  {
  }

  /** If the offsets from p sum to zero, they still do after mapping about p. */
  lemma MapAboutKeepsZeroOffsets(m: Linear, p: Point, vs: seq<Vertex>)
    requires SumDX(vs, p) == 0.0 && SumDY(vs, p) == 0.0
    ensures SumDX(MapAbout(m, p, vs), p) == 0.0 && SumDY(MapAbout(m, p, vs), p) == 0.0
  {
    MapAboutOffsets(m, p, vs);
    ZeroRow(m.a, m.b);
    ZeroRow(m.c, m.d);
  }

  /** Any linear map applied about the centroid leaves the centroid where it
      was. */
  lemma MapAboutKeepsCentroid(m: Linear, vs: seq<Vertex>)
    requires |vs| > 0
    ensures Centroid(MapAbout(m, Centroid(vs), vs)) == Centroid(vs)
  {
    CentroidOffsetsVanish(vs);
    MapAboutKeepsZeroOffsets(m, Centroid(vs), vs);
    CentroidFromOffsets(MapAbout(m, Centroid(vs), vs), Centroid(vs));
  }

  /** About written out, with the offsets from p named. */
  lemma AboutUnfold(m: Linear, p: Point, v: Vertex)
    ensures About(m, p, v).x - p.x == Row(m.a, m.b, v.x - p.x, v.y - p.y)
    ensures About(m, p, v).y - p.y == Row(m.c, m.d, v.x - p.x, v.y - p.y)
    ensures About(m, p, v).w == 1.0
  {
  }

  /** One row (a2, b2) applied to the offset that m1 made of v's offset is
      one row of the matrix product applied to v's offset itself. */
  lemma RowThen(m1: Linear, a2: real, b2: real, p: Point, v: Vertex)
    ensures Row(a2, b2, About(m1, p, v).x - p.x, About(m1, p, v).y - p.y)
         == Row(a2 * m1.a + b2 * m1.c, a2 * m1.b + b2 * m1.d, v.x - p.x, v.y - p.y)
  {
    var dx := v.x - p.x;
    var dy := v.y - p.y;
    var ox := About(m1, p, v).x - p.x;
    var oy := About(m1, p, v).y - p.y;
    assert ox == m1.a * dx + m1.b * dy;
    assert oy == m1.c * dx + m1.d * dy;
    Compose(m1.a, m1.b, m1.c, m1.d, a2, b2, dx, dy, ox, oy);
  }

  lemma Compose(a1: real, b1: real, c1: real, d1: real, a2: real, b2: real,
                dx: real, dy: real, ox: real, oy: real)
    requires ox == a1 * dx + b1 * dy && oy == c1 * dx + d1 * dy
    ensures a2 * ox + b2 * oy == (a2 * a1 + b2 * c1) * dx + (a2 * b1 + b2 * d1) * dy
  {
  }

  /** About of the matrix product, written with the product's entries. */
  lemma AboutOfThen(m1: Linear, m2: Linear, p: Point, v: Vertex)
    ensures About(Then(m1, m2), p, v).x
         == Row(m2.a * m1.a + m2.b * m1.c, m2.a * m1.b + m2.b * m1.d, v.x - p.x, v.y - p.y) + p.x
    ensures About(Then(m1, m2), p, v).y
         == Row(m2.c * m1.a + m2.d * m1.c, m2.c * m1.b + m2.d * m1.d, v.x - p.x, v.y - p.y) + p.y
  {
  }

  lemma AboutThen(m1: Linear, m2: Linear, p: Point, v: Vertex)
    ensures About(m2, p, About(m1, p, v)) == About(Then(m1, m2), p, v)
  {
    RowThen(m1, m2.a, m2.b, p, v);
    RowThen(m1, m2.c, m2.d, p, v);
    AboutOfThen(m1, m2, p, v);
  }

  /** Two maps about the same centre compose as the matrix product. */
  lemma MapAboutThen(m1: Linear, m2: Linear, p: Point, vs: seq<Vertex>)
    ensures MapAbout(m2, p, MapAbout(m1, p, vs)) == MapAbout(Then(m1, m2), p, vs)
  {
    var inner := MapAbout(m1, p, vs);
    var lhs := MapAbout(m2, p, inner);
    var rhs := MapAbout(Then(m1, m2), p, vs);
    forall i | 0 <= i < |vs|
      ensures lhs[i] == rhs[i]
    {
      AboutThen(m1, m2, p, vs[i]);
    }
  }

  /** The identity map about any centre changes nothing on vertices whose w
      is already 1. */
  lemma MapAboutIdentity(p: Point, vs: seq<Vertex>)
    requires AllHomogeneousOne(vs)
    ensures MapAbout(Identity, p, vs) == vs
  {
    var r := MapAbout(Identity, p, vs);
    forall i | 0 <= i < |vs|
      ensures r[i] == vs[i]
    {
      AboutUnfold(Identity, p, vs[i]);
      IdentityRows(vs[i].x - p.x, vs[i].y - p.y);
    }
  }

  lemma IdentityRows(dx: real, dy: real)
    ensures Row(1.0, 0.0, dx, dy) == dx && Row(0.0, 1.0, dx, dy) == dy
  {
  }
}
