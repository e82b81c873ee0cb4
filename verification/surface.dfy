/** The drawing surface the renderer talks to.  Instead of calling methods on a
    2D context, the model returns the sequence of calls it would make. */
module Surface {

  /** The canvas element's size in pixels (canvas.width and canvas.height). */
  datatype Canvas = Canvas(width: nat, height: nat)

  /** One call on the 2D context.  Colours are not modelled. */
  datatype Command =
    | ClearRect(width: real, height: real)
    | BeginPath
    | MoveTo(x: real, y: real)
    | LineTo(x: real, y: real)
    | Arc(cx: real, cy: real, radius: real)
    | ClosePath
    | Fill

  /** The number of fill calls among the commands: how many shapes get
      painted. */
  function Fills(cmds: seq<Command>): nat
  {
    if |cmds| == 0 then 0 else (if cmds[0] == Fill then 1 else 0) + Fills(cmds[1..])
  }

  lemma {:induction false} FillsAppend(a: seq<Command>, b: seq<Command>)
    ensures Fills(a + b) == Fills(a) + Fills(b)
  {
    if |a| > 0 {
      assert (a + b)[1..] == a[1..] + b;
      FillsAppend(a[1..], b);
    } else {
      assert a + b == b;
    }
  }

  lemma FillsOfOne(c: Command)
    ensures Fills([c]) == if c == Fill then 1 else 0
  {
    assert [c][1..] == [];
  }
}
