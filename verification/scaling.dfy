/** Slide 2: every polygon is scaled about its centroid by a factor that
    follows sin(time * ScaleSpeed), remapped into [MinScale, MaxScale] and
    clamped.  The scaled vertices replace the old ones, so the factors of
    successive frames multiply. */
module Scaling {
  import opened Vertices

  const ScaleSpeed: real := 0.0000005
  const MaxScale: real := 1.5
  const MinScale: real := 0.5

  /** The factor computed from a sine value:
      s * (MaxScale - MinScale) / 2 + (MaxScale + MinScale) / 2. */
  function ScaleFor(sine: real): (k: real)
    ensures -1.0 <= sine <= 1.0 ==> MinScale <= k <= MaxScale
    ensures sine == -1.0 ==> k == MinScale
    ensures sine == 1.0 ==> k == MaxScale
  {
    sine * (MaxScale - MinScale) / 2.0 + (MaxScale + MinScale) / 2.0
  }

  function Min(a: real, b: real): real
  {
    if a <= b then a else b
  }

  function Max(a: real, b: real): real
  {
    if a >= b then a else b
  }

  /** min(MaxScale, max(MinScale, k)). */
  function Clamp(k: real): (r: real)
    ensures MinScale <= r <= MaxScale
    ensures MinScale <= k <= MaxScale ==> r == k
    ensures k < MinScale ==> r == MinScale
    ensures k > MaxScale ==> r == MaxScale
  {
    Min(MaxScale, Max(MinScale, k))
  }

  /** The factor one frame scales by: the remapped sine value, clamped.
      Whatever the sine value, it lies in [MinScale, MaxScale]; for a genuine
      sine value in [-1, 1] the clamp changes nothing. */
  function Factor(sine: real): (k: real)
    ensures MinScale <= k <= MaxScale
    ensures -1.0 <= sine <= 1.0 ==> k == ScaleFor(sine)
  {
    Clamp(ScaleFor(sine))
  }

  /** The uniform scaling matrix [[k, 0], [0, k]]. */
  function Dilator(k: real): Linear
  {
    Linear(k, 0.0, 0.0, k)
  }

  /** Scales a polygon by k about its centroid; an empty polygon stays empty.
      Each vertex is moved to the centroid's frame, dilated by k, moved back
      and rebuilt with w = 1. */
  function ScaleAboutCentroid(vs: seq<Vertex>, k: real): (r: seq<Vertex>)
    ensures |r| == |vs|
    ensures forall i :: 0 <= i < |vs| ==> r[i] == About(Dilator(k), Centroid(vs), vs[i])
    ensures AllHomogeneousOne(r)
  {
    if |vs| == 0 then [] else MapAbout(Dilator(k), Centroid(vs), vs)
  }

  /** Vertex i becomes (v - centre) * k + centre with w = 1. */
  lemma ScaleFormula(vs: seq<Vertex>, k: real, i: int)
    requires 0 <= i < |vs|
    ensures var c := Centroid(vs);
            var u := ScaleAboutCentroid(vs, k)[i];
            && u.x == (vs[i].x - c.x) * k + c.x
            && u.y == (vs[i].y - c.y) * k + c.y
            && u.w == 1.0
  {
    var c := Centroid(vs);
    ScaleVertex(k, c, vs[i], ScaleAboutCentroid(vs, k)[i]);
  }

  lemma ScaleVertex(k: real, c: Point, v: Vertex, u: Vertex)
    requires u == About(Dilator(k), c, v)
    ensures u.x == (v.x - c.x) * k + c.x
    ensures u.y == (v.y - c.y) * k + c.y
  {
    AboutUnfold(Dilator(k), c, v);
    DilatorRows(k, v.x - c.x, v.y - c.y);
  }

  lemma DilatorRows(k: real, dx: real, dy: real)
    ensures Row(Dilator(k).a, Dilator(k).b, dx, dy) == dx * k
    ensures Row(Dilator(k).c, Dilator(k).d, dx, dy) == dy * k
  {
  }

  /** Scaling keeps the vertex count, sets every w to 1 and leaves the
      centroid where it was. */
  lemma ScaleKeepsCentroid(vs: seq<Vertex>, k: real)
    requires |vs| > 0
    ensures |ScaleAboutCentroid(vs, k)| == |vs|
    ensures AllHomogeneousOne(ScaleAboutCentroid(vs, k))
    ensures Centroid(ScaleAboutCentroid(vs, k)) == Centroid(vs)
  {
    MapAboutKeepsCentroid(Dilator(k), vs);
  }

  /** Scaling the already scaled polygon multiplies the factors. */
  lemma ScaleTwice(vs: seq<Vertex>, k1: real, k2: real)
    ensures ScaleAboutCentroid(ScaleAboutCentroid(vs, k1), k2) == ScaleAboutCentroid(vs, k1 * k2)
  {
    if |vs| > 0 {
      ScaleKeepsCentroid(vs, k1);
      MapAboutThen(Dilator(k1), Dilator(k2), Centroid(vs), vs);
      assert Then(Dilator(k1), Dilator(k2)) == Dilator(k1 * k2);
    }
  }

  /** Scaling by k and then by 1/k restores a polygon whose vertices all have
      w = 1. */
  lemma ScaleThenUnscale(vs: seq<Vertex>, k: real)
    requires k != 0.0
    requires AllHomogeneousOne(vs)
    ensures ScaleAboutCentroid(ScaleAboutCentroid(vs, k), 1.0 / k) == vs
  {
    var inverse := 1.0 / k;
    ScaleTwice(vs, k, inverse);
    Reciprocal(k);
    var one := k * inverse;
    assert one == 1.0;
    ScaleByOne(vs);
    assert ScaleAboutCentroid(vs, one) == ScaleAboutCentroid(vs, 1.0);
  }

  lemma Reciprocal(k: real)
    requires k != 0.0
    ensures k * (1.0 / k) == 1.0
  {
  }

  /** Scaling by 1 changes nothing on vertices whose w is already 1. */
  lemma ScaleByOne(vs: seq<Vertex>)
    requires AllHomogeneousOne(vs)
    ensures ScaleAboutCentroid(vs, 1.0) == vs
  {
    if |vs| > 0 {
      assert Dilator(1.0) == Identity;
      MapAboutIdentity(Centroid(vs), vs);
    }
  }

  /** One frame of slide 2 for one polygon, step by step as the source does
      it: scale the copied vertices by the unclamped factor, overwrite that
      result with the copy scaled by the clamped factor, then write every
      vertex's three entries back from the list itself.  The net effect is a
      single scaling by the clamped factor. */
  method ScaleFrame(vs: seq<Vertex>, sine: real) returns (r: seq<Vertex>)
    ensures r == ScaleAboutCentroid(vs, Factor(sine))
  {
    var original := vs;
    var scale := ScaleFor(sine);
    r := ScaleAboutCentroid(original, scale);
    var clamped := Clamp(scale);
    r := ScaleAboutCentroid(original, clamped);
    var i := 0;
    while i < |r|
      invariant 0 <= i <= |r|
      invariant r == ScaleAboutCentroid(original, clamped)
    {
      r := r[i := r[i].(x := r[i].x, y := r[i].y, w := r[i].w)];
      i := i + 1;
    }
  }
}
