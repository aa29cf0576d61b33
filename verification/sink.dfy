/** The plotting sink as a sequence of structured commands.
    The gnuplot process reads one line per command; the model keeps the
    command itself instead of its `%f` text. */
module Sink {

  datatype Point = Point(x: real, y: real)

  /** `Clear` is the `clear` line written by a reset. `Plot` is the
      parametric segment `plot [0:1] x0 + dx * t, y0 + dy * t notitle`,
      with its four numbers in the order they are printed. */
  datatype Command = Clear | Plot(x0: real, dx: real, y0: real, dy: real)

  /** First point of a plotted segment (t = 0). */
  function Start(c: Command): Point
    requires c.Plot?
  {
    Point(c.x0, c.y0)
  }

  /** Last point of a plotted segment (t = 1). */
  function End(c: Command): Point
    requires c.Plot?
  {
    Point(c.x0 + c.dx, c.y0 + c.dy)
  }

  /** The point the plotter draws for parameter `t` of a segment: the
      printed expression `x0 + dx * t, y0 + dy * t`. It documents what a
      `Plot` means; the operations themselves never evaluate it. */
  function At(c: Command, t: real): (p: Point)
    requires c.Plot?
    ensures t == 0.0 ==> p == Start(c)
    ensures t == 1.0 ==> p == End(c)
  {
    Point(c.x0 + c.dx * t, c.y0 + c.dy * t)
  }

  /** The command `draw_line` emits for the segment (x1, y1) to (x2, y2):
      the start point and the deltas, so start plus delta is the end point. */
  function DrawLine(x1: real, y1: real, x2: real, y2: real): (c: Command)
    ensures c.Plot?
    ensures Start(c) == Point(x1, y1)
    ensures c.x0 + c.dx == x2 && c.y0 + c.dy == y2
  {
    Plot(x1, x2 - x1, y1, y2 - y1)
  }

  /** Every plotted segment is the one `DrawLine` makes from its own end points,
      so a segment is determined by its two end points. */
  lemma DrawLineOfEndpoints(c: Command)
    requires c.Plot?
    ensures DrawLine(Start(c).x, Start(c).y, End(c).x, End(c).y) == c
  {
  }

  lemma DrawLineInjective(x1: real, y1: real, x2: real, y2: real,
                          u1: real, v1: real, u2: real, v2: real)
    requires DrawLine(x1, y1, x2, y2) == DrawLine(u1, v1, u2, v2)
    ensures x1 == u1 && y1 == v1 && x2 == u2 && y2 == v2
  {
  }

  /** Number of `Clear` commands in a log. */
  function Clears(log: seq<Command>): nat
  {
    if |log| == 0 then 0
    else Clears(log[..|log| - 1]) + (if log[|log| - 1].Clear? then 1 else 0)
  }

  /** Number of plotted segments in a log. */
  function Plots(log: seq<Command>): nat
  {
    if |log| == 0 then 0
    else Plots(log[..|log| - 1]) + (if log[|log| - 1].Plot? then 1 else 0)
  }

  /** Every command is either a clear or a plot. */
  lemma {:induction false} ClearsPlusPlots(log: seq<Command>)
    ensures Clears(log) + Plots(log) == |log|
  {
    if |log| > 0 {
      ClearsPlusPlots(log[..|log| - 1]);
    }
  }
}
