/** The tortoise state machine: a position, a heading in radians that is
    never wrapped, and a pen flag, together with the log of commands the
    plotting sink has received. Each operation is a pure step from one
    `World` to the next, returning what the Guile procedure returns. */
module Tortoise {
  import opened Trig
  import opened Sink

  datatype Turtle = Turtle(x: real, y: real, direction: real, pendown: bool)
  {
    function Position(): Point {
      Point(x, y)
    }
  }

  /** The turtle together with everything written to the sink so far. */
  datatype World = World(turtle: Turtle, log: seq<Command>)

  /** Reported heading of a turtle, in degrees. */
  function Heading(m: Math, t: Turtle): real {
    Degrees(m, t.direction)
  }

  /** `tortoise-reset`: back to the origin, facing along +x, pen down,
      and one `clear` written to the sink. */
  function Reset(w: World): (r: World)
    ensures r.turtle.Position() == Point(0.0, 0.0)
    ensures r.turtle.direction == 0.0
    ensures r.turtle.pendown
    ensures r.log == w.log + [Clear]
  {
    World(Turtle(0.0, 0.0, 0.0, true), w.log + [Clear])
  }

  /** `tortoise-pendown`: reports the previous pen flag and lowers the pen,
      whatever it was; nothing else changes and nothing is written. */
  function PenDown(w: World): (r: (World, bool))
    ensures r.1 == w.turtle.pendown
    ensures r.0.turtle.pendown
    ensures r.0.turtle.Position() == w.turtle.Position()
    ensures r.0.turtle.direction == w.turtle.direction
    ensures r.0.log == w.log
  {
    (World(w.turtle.(pendown := true), w.log), w.turtle.pendown)
  }

  /** `tortoise-penup`: reports the previous pen flag and raises the pen,
      whatever it was; nothing else changes and nothing is written. */
  function PenUp(w: World): (r: (World, bool))
    ensures r.1 == w.turtle.pendown
    ensures !r.0.turtle.pendown
    ensures r.0.turtle.Position() == w.turtle.Position()
    ensures r.0.turtle.direction == w.turtle.direction
    ensures r.0.log == w.log
  {
    (World(w.turtle.(pendown := false), w.log), w.turtle.pendown)
  }

  /** `tortoise-turn`: adds the angle, converted to radians, to the heading
      without reducing it to any range, and reports the new heading in
      degrees, which is the old reported heading plus the argument. */
  function Turn(m: Math, w: World, degrees: real): (r: (World, real))
    ensures r.0.turtle.direction == w.turtle.direction + Radians(m, degrees)
    ensures r.1 == Heading(m, r.0.turtle)
    ensures r.1 == Heading(m, w.turtle) + degrees
    ensures r.0.turtle.Position() == w.turtle.Position()
    ensures r.0.turtle.pendown == w.turtle.pendown
    ensures r.0.log == w.log
  {
    var direction := w.turtle.direction + Radians(m, degrees);
    DegreesAdditive(m, w.turtle.direction, Radians(m, degrees));
    DegreesOfRadians(m, degrees);
    (World(w.turtle.(direction := direction), w.log), Degrees(m, direction))
  }

  /** `tortoise-move`: steps `length` along the heading, whatever the pen
      state and whatever the length (zero and negative included), and
      reports the new position. With the pen down exactly one segment is
      written, from the position before the move to the one after it;
      with the pen up nothing is written. */
  function Move(m: Math, w: World, length: real): (r: (World, Point))
    ensures r.1 == Point(w.turtle.x + length * m.cos(w.turtle.direction),
                         w.turtle.y + length * m.sin(w.turtle.direction))
    ensures r.0.turtle.Position() == r.1
    ensures r.0.turtle.direction == w.turtle.direction
    ensures r.0.turtle.pendown == w.turtle.pendown
    ensures w.turtle.pendown ==>
              |r.0.log| == |w.log| + 1 && r.0.log[..|w.log|] == w.log
              && r.0.log[|w.log|].Plot?
              && Start(r.0.log[|w.log|]) == w.turtle.Position()
              && End(r.0.log[|w.log|]) == r.1
    ensures !w.turtle.pendown ==> r.0.log == w.log
  {
    var t := w.turtle;
    var newX := t.x + length * m.cos(t.direction);
    var newY := t.y + length * m.sin(t.direction);
    var log := if t.pendown then w.log + [DrawLine(t.x, t.y, newX, newY)] else w.log;
    (World(t.(x := newX, y := newY), log), Point(newX, newY))
  }

  /** Reset forgets everything about the turtle it started from. */
  lemma ResetForgetsTurtle(a: World, b: World)
    ensures Reset(a).turtle == Reset(b).turtle
  {
  }

  /** Resetting twice leaves the same turtle as resetting once, with one
      more `clear` in the log. */
  lemma ResetTwice(w: World)
    ensures Reset(Reset(w)).turtle == Reset(w).turtle
    ensures Reset(Reset(w)).log == w.log + [Clear, Clear]
  {
  }

  /** Pen feedback: from a lowered pen, pen-up reports true and the
      following pen-down reports false, and the pair restores the world. */
  lemma PenToggleFeedback(w: World)
    requires w.turtle.pendown
    ensures PenUp(w).1
    ensures !PenDown(PenUp(w).0).1
    ensures PenDown(PenUp(w).0).0 == w
  {
  }

  /** Both pen operations set their value whatever it was before: applying
      either twice is the same as applying it once, and the second call
      reports the value the first one set. */
  lemma PenOperationsIdempotent(w: World)
    ensures PenUp(PenUp(w).0).0 == PenUp(w).0 && !PenUp(PenUp(w).0).1
    ensures PenDown(PenDown(w).0).0 == PenDown(w).0 && PenDown(PenDown(w).0).1
  {
  }

  /** The pen gates drawing, never movement: raising or lowering it first
      leads to the same position and heading after a move. */
  lemma PenDoesNotAffectMovement(m: Math, w: World, length: real)
    ensures Move(m, PenUp(w).0, length).1 == Move(m, PenDown(w).0, length).1
    ensures Move(m, PenUp(w).0, length).0.turtle.direction
            == Move(m, PenDown(w).0, length).0.turtle.direction
  {
    var up, down := PenUp(w).0.turtle, PenDown(w).0.turtle;
    assert up.x == down.x && up.y == down.y && up.direction == down.direction;
  }

  /** A zero-length move with the pen down still writes a segment, one
      that starts and ends at the current position. */
  lemma ZeroMoveStillDraws(m: Math, w: World)
    requires w.turtle.pendown
    ensures var r := Move(m, w, 0.0);
            r.0.turtle == w.turtle
            && r.0.log == w.log + [DrawLine(w.turtle.x, w.turtle.y, w.turtle.x, w.turtle.y)]
  {
  }

  /** Headings are not wrapped: a turn of 360 degrees changes the stored
      direction by 2 * M_PI and the reported heading by 360. */
  lemma TurnDoesNotWrap(m: Math, w: World)
    ensures Turn(m, w, 360.0).0.turtle.direction == w.turtle.direction + 2.0 * m.pi
    ensures Turn(m, w, 360.0).1 == Heading(m, w.turtle) + 360.0
  {
  }

  /** Two turns in a row act as one turn by the sum of their angles. */
  lemma TurnsCompose(m: Math, w: World, a: real, b: real)
    ensures Turn(m, Turn(m, w, a).0, b) == Turn(m, w, a + b)
  {
  }
}
