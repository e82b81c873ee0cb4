/** drawConvexPolygon: turns a list of homogeneous vertices into one filled
    canvas path.  Malformed entries are skipped, each remaining vertex is
    projected to (x / w, y / w), and the pen is moved (rather than a line
    drawn) only for the entry at original index 0. */
module PolygonPath {
  import opened Vertices
  import opened Surface

  /** One entry of the vertex list: a vertex with all three entries, or a
      value missing one of them (the source's falsy-entry check). */
  datatype Slot = Malformed | Present(v: Vertex)

  /** Every vertex that will be drawn has a non-zero w, so the projection
      is defined. */
  predicate NonZeroW(list: seq<Slot>)
  {
    forall i :: 0 <= i < |list| && list[i].Present? ==> list[i].v.w != 0.0
  }

  /** The indices below n whose entries are drawn, in increasing order. */
  function ValidIndices(list: seq<Slot>, n: nat): (idx: seq<nat>)
    requires n <= |list|
    ensures forall k :: 0 <= k < |idx| ==> idx[k] < n
    ensures forall j :: j in idx <==> 0 <= j < n && list[j].Present?
    ensures forall k, l :: 0 <= k < l < |idx| ==> idx[k] < idx[l]
  {
    if n == 0 then []
    else if list[n - 1].Present? then ValidIndices(list, n - 1) + [n - 1]
    else ValidIndices(list, n - 1)
  }

  /** The pen command for the vertex at original index i: the pen moves
      exactly when i is 0 and draws a line otherwise. */
  function StepCommand(i: nat, v: Vertex): (cmd: Command)
    requires v.w != 0.0
    ensures cmd.MoveTo? || cmd.LineTo?
    ensures cmd.MoveTo? <==> i == 0
  {
    if i == 0 then MoveTo(v.x / v.w, v.y / v.w) else LineTo(v.x / v.w, v.y / v.w)
  }

  /** The pen goes to the vertex projected out of homogeneous coordinates:
      the point that, scaled back by w, is the vertex's (x, y). */
  lemma StepCommandProjects(i: nat, v: Vertex)
    requires v.w != 0.0
    ensures StepCommand(i, v).x * v.w == v.x && StepCommand(i, v).y * v.w == v.y
  {
  }

  /** The pen commands for the entries below index n: one per drawn entry,
      in the order of the entries, each for its original index. */
  function Strokes(list: seq<Slot>, n: nat): (r: seq<Command>)
    requires n <= |list| && NonZeroW(list)
    ensures |r| == |ValidIndices(list, n)|
    ensures forall k :: 0 <= k < |r| ==>
              r[k] == StepCommand(ValidIndices(list, n)[k], list[ValidIndices(list, n)[k]].v)
  {
    if n == 0 then []
    else if list[n - 1].Present? then Strokes(list, n - 1) + [StepCommand(n - 1, list[n - 1].v)]
    else Strokes(list, n - 1)
  }

  /** The whole path: nothing for an empty list, otherwise begin, the
      strokes of every drawn entry, close and fill. */
  function ConvexPolygonPath(list: seq<Slot>): (r: seq<Command>)
    requires NonZeroW(list)
    ensures |list| == 0 ==> r == []
    ensures |list| > 0 ==>
              && |r| == |ValidIndices(list, |list|)| + 3
              && r[0] == BeginPath
              && r[1..|r| - 2] == Strokes(list, |list|)
              && r[|r| - 2] == ClosePath
              && r[|r| - 1] == Fill
  {
    if |list| == 0 then [] else [BeginPath] + Strokes(list, |list|) + [ClosePath, Fill]
  }

  /** The source's loop over the list, accumulating the commands. */
  method DrawConvexPolygon(list: seq<Slot>) returns (cmds: seq<Command>)
    requires NonZeroW(list)
    ensures cmds == ConvexPolygonPath(list)
  {
    if |list| == 0 {
      return [];
    }
    cmds := [BeginPath];
    var i := 0;
    while i < |list|
      invariant 0 <= i <= |list|
      invariant cmds == [BeginPath] + Strokes(list, i)
    {
      match list[i] {
        case Malformed =>
        case Present(v) =>
          var x := v.x / v.w;
          var y := v.y / v.w;
          cmds := cmds + [if i == 0 then MoveTo(x, y) else LineTo(x, y)];
      }
      i := i + 1;
    }
    cmds := cmds + [ClosePath, Fill];
  }

  /** The path contains a moveTo if and only if the entry at index 0 is
      present; then it is the first stroke.  With a malformed first
      entry every stroke is a lineTo. */
  lemma {:induction false} PathMovesIffFirstPresent(list: seq<Slot>)
    requires NonZeroW(list)
    ensures var r := ConvexPolygonPath(list);
            (exists k :: 0 <= k < |r| && r[k].MoveTo?) <==> |list| > 0 && list[0].Present?
    ensures |list| > 0 && list[0].Present? ==> ConvexPolygonPath(list)[1].MoveTo?
  {
    var r := ConvexPolygonPath(list);
    if |list| > 0 {
      var idx := ValidIndices(list, |list|);
      var s := Strokes(list, |list|);
      if list[0].Present? {
        assert 0 in idx;
        assert idx[0] == 0;
        assert r[1] == s[0];
      } else {
        forall k | 0 <= k < |r|
          ensures !r[k].MoveTo?
        {
          if 1 <= k < |r| - 2 {
            assert r[k] == s[k - 1];
            assert idx[k - 1] in idx;
          }
        }
      }
    }
  }

  /** A stroke never paints. */
  lemma {:induction false} StrokesDoNotFill(list: seq<Slot>, n: nat)
    requires n <= |list| && NonZeroW(list)
    ensures Fills(Strokes(list, n)) == 0
  {
    if n > 0 {
      StrokesDoNotFill(list, n - 1);
      if list[n - 1].Present? {
        var cmd := StepCommand(n - 1, list[n - 1].v);
        FillsAppend(Strokes(list, n - 1), [cmd]);
        FillsOfOne(cmd);
      }
    }
  }

  /** A non-empty list paints exactly one shape, even when every entry is
      malformed; an empty list paints none. */
  lemma PathFillsOnce(list: seq<Slot>)
    requires NonZeroW(list)
    ensures Fills(ConvexPolygonPath(list)) == if |list| == 0 then 0 else 1
  {
    if |list| > 0 {
      StrokesDoNotFill(list, |list|);
      FillsAppend([BeginPath] + Strokes(list, |list|), [ClosePath, Fill]);
      FillsAppend([BeginPath], Strokes(list, |list|));
    }
  }
}
