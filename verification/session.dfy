/** A session: the Guile shell calls the five tortoise procedures in some
    order, one at a time. `Run` feeds a sequence of calls through the state
    machine and collects what each call returned; the lemmas relate the
    final world and the sink's log to simple summaries of the calls. */
module Session {
  import opened Trig
  import opened Sink
  import Tortoise

  type World = Tortoise.World

  /** One call of a registered tortoise procedure. */
  datatype Op = Reset | PenUp | PenDown | Turn(degrees: real) | Move(length: real)

  /** What a call returns to the shell: reset's unspecified value, the
      previous pen flag, the new heading in degrees, or the new position. */
  datatype Reply = Unspecified | Flag(previous: bool) | Angle(degrees: real) | Position(at: Point)

  /** One call. Whatever it is, it keeps the earlier log as a prefix and
      writes at most one command. */
  function Step(m: Math, w: World, op: Op): (r: (World, Reply))
    ensures w.log <= r.0.log
    ensures |r.0.log| <= |w.log| + 1
  {
    match op
    case Reset => (Tortoise.Reset(w), Unspecified)
    case PenUp => var (w', b) := Tortoise.PenUp(w); (w', Flag(b))
    case PenDown => var (w', b) := Tortoise.PenDown(w); (w', Flag(b))
    case Turn(d) => var (w', h) := Tortoise.Turn(m, w, d); (w', Angle(h))
    case Move(l) => var (w', p) := Tortoise.Move(m, w, l); (w', Position(p))
  }

  /** A sequence of calls, in order; one reply per call. */
  function Run(m: Math, w: World, ops: seq<Op>): (r: (World, seq<Reply>))
    ensures |r.1| == |ops|
    decreases |ops|
  {
    if |ops| == 0 then (w, [])
    else
      var (w1, replies) := Run(m, w, ops[..|ops| - 1]);
      var (w2, reply) := Step(m, w1, ops[|ops| - 1]);
      (w2, replies + [reply])
  }

  /** The sink only ever receives commands appended after the ones it
      already has: no call removes or reorders earlier commands. */
  lemma {:induction false} RunExtendsLog(m: Math, w: World, ops: seq<Op>)
    ensures w.log <= Run(m, w, ops).0.log
    decreases |ops|
  {
    if |ops| > 0 {
      RunExtendsLog(m, w, ops[..|ops| - 1]);
    }
  }

  /** Running a concatenation is running its parts one after the other:
      the world reached after the first part is all the second part sees. */
  lemma {:induction false} RunAppend(m: Math, w: World, a: seq<Op>, b: seq<Op>)
    ensures Run(m, w, a + b).0 == Run(m, Run(m, w, a).0, b).0
    ensures Run(m, w, a + b).1 == Run(m, w, a).1 + Run(m, Run(m, w, a).0, b).1
    decreases |b|
  {
    if |b| == 0 {
      assert a + b == a;
    } else {
      var b' := b[..|b| - 1];
      assert (a + b)[..|a + b| - 1] == a + b';
      assert (a + b)[|a + b| - 1] == b[|b| - 1];
      RunAppend(m, w, a, b');
    }
  }

  // ---- The sink never feeds back ----

  /** A call does not read the log: with more commands already written, it
      returns the same reply, leaves the same turtle, and writes the same
      commands after them. */
  lemma StepIgnoresLog(m: Math, t: Tortoise.Turtle, l: seq<Command>, k: seq<Command>, op: Op)
    ensures Step(m, Tortoise.World(t, l + k), op).1 == Step(m, Tortoise.World(t, k), op).1
    ensures Step(m, Tortoise.World(t, l + k), op).0.turtle == Step(m, Tortoise.World(t, k), op).0.turtle
    ensures Step(m, Tortoise.World(t, l + k), op).0.log == l + Step(m, Tortoise.World(t, k), op).0.log
  {
    match op
    case Reset =>
      assert (l + k) + [Clear] == l + (k + [Clear]);
    case PenUp =>
    case PenDown =>
    case Turn(_) =>
    case Move(len) => MoveIgnoresLog(m, t, l, k, len);
  }

  /** The move case of `StepIgnoresLog`: the new position depends on the
      turtle only, and the segment goes after whatever was written. */
  lemma MoveIgnoresLog(m: Math, t: Tortoise.Turtle, l: seq<Command>, k: seq<Command>, len: real)
    ensures Tortoise.Move(m, Tortoise.World(t, l + k), len).1 == Tortoise.Move(m, Tortoise.World(t, k), len).1
    ensures Tortoise.Move(m, Tortoise.World(t, l + k), len).0.turtle
            == Tortoise.Move(m, Tortoise.World(t, k), len).0.turtle
    ensures Tortoise.Move(m, Tortoise.World(t, l + k), len).0.log
            == l + Tortoise.Move(m, Tortoise.World(t, k), len).0.log
  {
    var long, short := Tortoise.World(t, l + k), Tortoise.World(t, k);
    var ml, ms := Tortoise.Move(m, long, len), Tortoise.Move(m, short, len);
    assert ml.1.x == ms.1.x && ml.1.y == ms.1.y;
    var p := ms.1;
    if t.pendown {
      var c := DrawLine(t.x, t.y, p.x, p.y);
      assert (l + k) + [c] == l + (k + [c]);
    }
  }

  /** The sink is write-only: the turtle alone decides every reply and
      every later state. A run from a world whose log is `l` answers and
      moves exactly as the same run from an empty log, and its log is `l`
      followed by what the empty-log run writes. */
  lemma {:induction false} LogIsWriteOnly(m: Math, t: Tortoise.Turtle, l: seq<Command>, ops: seq<Op>)
    ensures Run(m, Tortoise.World(t, l), ops).1 == Run(m, Tortoise.World(t, []), ops).1
    ensures Run(m, Tortoise.World(t, l), ops).0.turtle == Run(m, Tortoise.World(t, []), ops).0.turtle
    ensures Run(m, Tortoise.World(t, l), ops).0.log == l + Run(m, Tortoise.World(t, []), ops).0.log
    decreases |ops|
  {
    if |ops| == 0 {
      assert l + [] == l;
    } else {
      var pre := ops[..|ops| - 1];
      LogIsWriteOnly(m, t, l, pre);
      var v1 := Run(m, Tortoise.World(t, []), pre).0;
      StepIgnoresLog(m, v1.turtle, l, v1.log, ops[|ops| - 1]);
    }
  }

  // ---- Clears and resets ----

  /** Number of reset calls. */
  function Resets(ops: seq<Op>): nat
  {
    if |ops| == 0 then 0
    else Resets(ops[..|ops| - 1]) + (if ops[|ops| - 1].Reset? then 1 else 0)
  }

  /** One call adds one `clear` if it is a reset and one segment if it is
      a move made with the pen down, and sets the pen as the two-state
      machine says. */
  lemma StepCounts(m: Math, w: World, op: Op)
    ensures Clears(Step(m, w, op).0.log) == Clears(w.log) + (if op.Reset? then 1 else 0)
    ensures Plots(Step(m, w, op).0.log) == Plots(w.log) + (if op.Move? && w.turtle.pendown then 1 else 0)
    ensures Step(m, w, op).0.turtle.pendown
            == (if op.Reset? || op.PenDown? then true else if op.PenUp? then false else w.turtle.pendown)
  {
  }

  /** The sink receives exactly one `clear` per reset call. */
  lemma {:induction false} ClearsMatchResets(m: Math, w: World, ops: seq<Op>)
    ensures Clears(Run(m, w, ops).0.log) == Clears(w.log) + Resets(ops)
    decreases |ops|
  {
    if |ops| > 0 {
      var pre := ops[..|ops| - 1];
      ClearsMatchResets(m, w, pre);
      StepCounts(m, Run(m, w, pre).0, ops[|ops| - 1]);
    }
  }

  // ---- Pen state and plotted segments ----

  /** The two-state pen machine on its own: reset and pen-down lower the pen,
      pen-up raises it, turns and moves leave it alone. */
  function PenAfter(pen: bool, ops: seq<Op>): bool
  {
    if |ops| == 0 then pen
    else
      match ops[|ops| - 1]
      case Reset => true
      case PenDown => true
      case PenUp => false
      case _ => PenAfter(pen, ops[..|ops| - 1])
  }

  /** Number of move calls made while that pen machine is down. */
  function PenDownMoves(pen: bool, ops: seq<Op>): nat
  {
    if |ops| == 0 then 0
    else
      var pre := ops[..|ops| - 1];
      PenDownMoves(pen, pre) + (if ops[|ops| - 1].Move? && PenAfter(pen, pre) then 1 else 0)
  }

  /** The pen flag follows the two-state pen machine, and the sink receives
      exactly one segment per move made with the pen down and none for a
      move made with the pen up. */
  lemma {:induction false} PlotsMatchPenDownMoves(m: Math, w: World, ops: seq<Op>)
    ensures Run(m, w, ops).0.turtle.pendown == PenAfter(w.turtle.pendown, ops)
    ensures Plots(Run(m, w, ops).0.log) == Plots(w.log) + PenDownMoves(w.turtle.pendown, ops)
    decreases |ops|
  {
    if |ops| > 0 {
      var pre := ops[..|ops| - 1];
      PlotsMatchPenDownMoves(m, w, pre);
      StepCounts(m, Run(m, w, pre).0, ops[|ops| - 1]);
    }
  }

  // ---- Turn accumulation ----

  predicate AllTurns(ops: seq<Op>)
  {
    forall i :: 0 <= i < |ops| ==> ops[i].Turn?
  }

  /** Sum of the angles of the turn calls, in degrees. */
  function TurnSum(ops: seq<Op>): real
  {
    if |ops| == 0 then 0.0
    else TurnSum(ops[..|ops| - 1]) + (if ops[|ops| - 1].Turn? then ops[|ops| - 1].degrees else 0.0)
  }

  /** A run of turns adds the sum of the angles, converted to radians, to
      the heading, with no wrapping; position, pen and log are untouched,
      and the last call reports the starting heading plus the sum. */
  lemma {:induction false} TurnsAccumulate(m: Math, w: World, ops: seq<Op>)
    requires AllTurns(ops)
    ensures Run(m, w, ops).0
            == Tortoise.World(w.turtle.(direction := w.turtle.direction + Radians(m, TurnSum(ops))), w.log)
    ensures |ops| > 0 ==>
              Run(m, w, ops).1[|ops| - 1] == Angle(Tortoise.Heading(m, w.turtle) + TurnSum(ops))
    decreases |ops|
  {
    if |ops| > 0 {
      var pre := ops[..|ops| - 1];
      assert AllTurns(pre) by {
        forall i | 0 <= i < |pre| ensures pre[i].Turn? {
          assert pre[i] == ops[i];
        }
      }
      TurnsAccumulate(m, w, pre);
      var d := ops[|ops| - 1].degrees;
      RadiansAdditive(m, TurnSum(pre), d);
      DegreesAdditive(m, w.turtle.direction, Radians(m, TurnSum(ops)));
      DegreesOfRadians(m, TurnSum(ops));
    }
  }

  /** Starting from heading zero, the heading a run of turns reports is the
      plain sum of the angles passed, which may exceed 360 or be negative. */
  lemma TurnSumFromZero(m: Math, w: World, ops: seq<Op>)
    requires AllTurns(ops) && |ops| > 0
    requires w.turtle.direction == 0.0
    ensures Run(m, w, ops).1[|ops| - 1] == Angle(TurnSum(ops))
    ensures Tortoise.Heading(m, Run(m, w, ops).0.turtle) == TurnSum(ops)
  {
  }

  /** Every command the sink receives is a clear or a segment, so a run
      writes exactly one line per reset plus one per move made with the
      pen down, and nothing else. */
  lemma LogGrowth(m: Math, w: World, ops: seq<Op>)
    ensures |Run(m, w, ops).0.log|
            == |w.log| + Resets(ops) + PenDownMoves(w.turtle.pendown, ops)
  {
    ClearsMatchResets(m, w, ops);
    PlotsMatchPenDownMoves(m, w, ops);
    ClearsPlusPlots(w.log);
    ClearsPlusPlots(Run(m, w, ops).0.log);
  }

  /** Whether the calls contain a reset, and the sum of the angles of the
      turns made after the last reset (of all turns, if there is none). */
  function TurnsSinceReset(ops: seq<Op>): (bool, real)
  {
    if |ops| == 0 then (false, 0.0)
    else
      var (reset, sum) := TurnsSinceReset(ops[..|ops| - 1]);
      match ops[|ops| - 1]
      case Reset => (true, 0.0)
      case Turn(d) => (reset, sum + d)
      case _ => (reset, sum)
  }

  /** Over any sequence of calls, the heading is the heading at the last
      reset (0), or the starting heading if there was none, plus the turns
      made since then, in radians; moves and the pen never change it. A turn
      reports that heading in degrees. */
  lemma {:induction false} HeadingAfterRun(m: Math, w: World, ops: seq<Op>)
    ensures Run(m, w, ops).0.turtle.direction
            == (if TurnsSinceReset(ops).0 then 0.0 else w.turtle.direction)
               + Radians(m, TurnsSinceReset(ops).1)
    ensures |ops| > 0 && ops[|ops| - 1].Turn? ==>
              Run(m, w, ops).1[|ops| - 1]
              == Angle((if TurnsSinceReset(ops).0 then 0.0 else Tortoise.Heading(m, w.turtle))
                         + TurnsSinceReset(ops).1)
    decreases |ops|
  {
    if |ops| > 0 {
      var pre := ops[..|ops| - 1];
      HeadingAfterRun(m, w, pre);
      var (reset, sum) := TurnsSinceReset(pre);
      match ops[|ops| - 1]
      case Reset =>
      case PenUp =>
      case PenDown =>
      case Move(_) =>
      case Turn(d) =>
        RadiansAdditive(m, sum, d);
        var start := if reset then 0.0 else w.turtle.direction;
        DegreesAdditive(m, start, Radians(m, sum + d));
        DegreesOfRadians(m, sum + d);
    }
  }

  // ---- Scenarios ----

  /** The exact values of cos and sin at the quarter turns. A real
      library's values differ from these by rounding. */
  predicate QuarterTurnValues(m: Math)
  {
    && m.cos(0.0) == 1.0 && m.sin(0.0) == 0.0
    && m.cos(Radians(m, 90.0)) == 0.0 && m.sin(Radians(m, 90.0)) == 1.0
    && m.cos(Radians(m, 180.0)) == -1.0 && m.sin(Radians(m, 180.0)) == 0.0
    && m.cos(Radians(m, 270.0)) == 0.0 && m.sin(Radians(m, 270.0)) == -1.0
  }

  /** Adding one call at the end of a run is one more step from where the
      run stopped. */
  lemma RunSnoc(m: Math, w: World, ops: seq<Op>, op: Op)
    ensures Run(m, w, ops + [op]).0 == Step(m, Run(m, w, ops).0, op).0
    ensures Run(m, w, ops + [op]).1 == Run(m, w, ops).1 + [Step(m, Run(m, w, ops).0, op).1]
  {
  }

  /** Reset, pen up, move 5: the turtle ends at (5, 0) and the only command
      written is the reset's `clear`. */
  lemma PenUpSkip(m: Math, w: World)
    requires m.cos(0.0) == 1.0 && m.sin(0.0) == 0.0
    ensures Run(m, w, [Reset, PenUp, Move(5.0)]).0.log == w.log + [Clear]
    ensures Run(m, w, [Reset, PenUp, Move(5.0)]).0.turtle.Position() == Point(5.0, 0.0)
    ensures Run(m, w, [Reset, PenUp, Move(5.0)]).1
            == [Unspecified, Flag(true), Position(Point(5.0, 0.0))]
  {
    RunSnoc(m, w, [], Reset);
    RunSnoc(m, w, [Reset], PenUp);
    RunSnoc(m, w, [Reset, PenUp], Move(5.0));
  }

  /** Four times "move 3, turn 90" after a reset draws the four sides of a
      square of side 3, returns to the origin, and reports a heading of 360. */
  lemma Square(m: Math, w: World)
    requires QuarterTurnValues(m)
    ensures Run(m, w, [Reset] + Side() + Side() + Side() + Side()).1[8] == Angle(360.0)
    ensures Run(m, w, [Reset] + Side() + Side() + Side() + Side()).0.log
            == w.log + [Clear] + [DrawLine(0.0, 0.0, 3.0, 0.0)] + [DrawLine(3.0, 0.0, 3.0, 3.0)]
            + [DrawLine(3.0, 3.0, 0.0, 3.0)] + [DrawLine(0.0, 3.0, 0.0, 0.0)]
    ensures Run(m, w, [Reset] + Side() + Side() + Side() + Side()).0.turtle.Position() == Point(0.0, 0.0)
  {
    var sides := Side() + Side() + Side() + Side();
    assert [Reset] + Side() + Side() + Side() + Side() == [Reset] + sides;
    RunSnoc(m, w, [], Reset);
    assert [Reset] == [] + [Reset];
    RunAppend(m, w, [Reset], sides);
    SquareFromHome(m, Tortoise.Reset(w), Side());
  }

  /** From the origin, heading 0 and pen down: four sides draw the square,
      come back to the origin, and the last turn reports 360 degrees. */
  lemma SquareFromHome(m: Math, h: World, s: seq<Op>)
    requires QuarterTurnValues(m)
    requires h.turtle == Tortoise.Turtle(0.0, 0.0, 0.0, true)
    requires s == Side()
    ensures Run(m, h, s + s + s + s).1[7] == Angle(360.0)
    ensures Run(m, h, s + s + s + s).0.log
            == h.log + [DrawLine(0.0, 0.0, 3.0, 0.0)] + [DrawLine(3.0, 0.0, 3.0, 3.0)]
            + [DrawLine(3.0, 3.0, 0.0, 3.0)] + [DrawLine(0.0, 3.0, 0.0, 0.0)]
    ensures Run(m, h, s + s + s + s).0.turtle.Position() == Point(0.0, 0.0)
  {
    var h2 := FirstHalf(m, h);
    var _ := SecondHalf(m, h2);
    RunFourSides(m, h, s);
  }

  /** The first two sides, from the origin: along the x axis, then up. */
  lemma FirstHalf(m: Math, h: World) returns (h2: World)
    requires QuarterTurnValues(m)
    requires h.turtle == Tortoise.Turtle(0.0, 0.0, 0.0, true)
    ensures h2 == Run(m, Run(m, h, Side()).0, Side()).0
    ensures h2.turtle == Tortoise.Turtle(3.0, 3.0, Radians(m, 180.0), true)
    ensures h2.log == h.log + [DrawLine(0.0, 0.0, 3.0, 0.0)] + [DrawLine(3.0, 0.0, 3.0, 3.0)]
  {
    RadiansAdditive(m, 90.0, 90.0);
    var h1 := SideFrom(m, h);
    assert h1.turtle == Tortoise.Turtle(3.0, 0.0, Radians(m, 90.0), true);
    h2 := SideFrom(m, h1);
  }

  /** The last two sides, from the far corner back to the origin; the last
      turn brings the reported heading to 360. */
  lemma SecondHalf(m: Math, h2: World) returns (h4: World)
    requires QuarterTurnValues(m)
    requires h2.turtle == Tortoise.Turtle(3.0, 3.0, Radians(m, 180.0), true)
    ensures h4 == Run(m, Run(m, h2, Side()).0, Side()).0
    ensures h4.turtle.Position() == Point(0.0, 0.0)
    ensures h4.log == h2.log + [DrawLine(3.0, 3.0, 0.0, 3.0)] + [DrawLine(0.0, 3.0, 0.0, 0.0)]
    ensures Run(m, Run(m, h2, Side()).0, Side()).1[1] == Angle(360.0)
  {
    RadiansAdditive(m, 180.0, 90.0);
    RadiansAdditive(m, 270.0, 90.0);
    var h3 := SideFrom(m, h2);
    assert h3.turtle == Tortoise.Turtle(0.0, 3.0, Radians(m, 270.0), true);
    h4 := SideFrom(m, h3);
    DegreesOfRadians(m, 270.0);
  }

  /** Four copies of a two-call sequence run one copy after another; the
      eighth reply is the second reply of the last copy. */
  lemma RunFourSides(m: Math, h: World, s: seq<Op>)
    requires |s| == 2
    ensures Run(m, h, s + s + s + s).0 == Run(m, Run(m, Run(m, Run(m, h, s).0, s).0, s).0, s).0
    ensures Run(m, h, s + s + s + s).1[7] == Run(m, Run(m, Run(m, Run(m, h, s).0, s).0, s).0, s).1[1]
  {
    RunAppend(m, h, s, s);
    RunAppend(m, h, s + s, s);
    RunAppend(m, h, s + s + s, s);
  }

  /** One side of the square: "move 3, turn 90". */
  function Side(): seq<Op>
  {
    [Move(3.0), Turn(90.0)]
  }

  /** One side of the square from any world with the pen down: it draws a
      segment of length 3 along the heading, turns by 90 degrees, and the
      turn reports the old heading plus 90. */
  lemma SideFrom(m: Math, h: World) returns (h': World)
    requires h.turtle.pendown
    ensures h' == Run(m, h, Side()).0
    ensures h'.turtle == Tortoise.Turtle(h.turtle.x + 3.0 * m.cos(h.turtle.direction),
                                         h.turtle.y + 3.0 * m.sin(h.turtle.direction),
                                         h.turtle.direction + Radians(m, 90.0), true)
    ensures h'.log == h.log + [DrawLine(h.turtle.x, h.turtle.y, h'.turtle.x, h'.turtle.y)]
    ensures Run(m, h, Side()).1[1] == Angle(Tortoise.Heading(m, h.turtle) + 90.0)
  {
    RunSnoc(m, h, [], Move(3.0));
    RunSnoc(m, h, [Move(3.0)], Turn(90.0));
    assert [Move(3.0)] == [] + [Move(3.0)];
    h' := Run(m, h, Side()).0;
  }
}
