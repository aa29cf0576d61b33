# Tortoise: a model of a Logo-like turtle backend

The modelled program is a small C backend for a Logo-style "tortoise"
driven from a Guile shell. It keeps one turtle: a position `(x, y)`, a
heading `direction` in radians, and a `pendown` flag. The shell can call
five procedures: `tortoise-reset`, `tortoise-penup`, `tortoise-pendown`,
`tortoise-turn` and `tortoise-move`. Each one changes the turtle and may
write one command to a gnuplot process: `clear` on a reset, and one
parametric `plot` segment for each move made with the pen down.

The model has four modules:

- `Trig` (`trig.dfy`) abstracts the C math library. `cos`, `sin` and
  `M_PI` are fields of a `Math` value: two arbitrary total functions
  `real -> real` and a constant. The only fact assumed about them is
  `pi > 0`. It also defines the degree/radian conversions exactly as
  `tortoise_turn` writes them, in the code's order: `M_PI / 180.0 * value`
  (tortoise.c:83) and `direction * 180.0 / M_PI` (tortoise.c:84).
- `Sink` (`sink.dfy`) models the gnuplot pipe as structured commands.
  `Clear` is the `clear` line. `Plot(x0, dx, y0, dy)` is the segment
  `plot [0:1] x0 + dx * t, y0 + dy * t`, with its numbers in printed order.
  `DrawLine` builds the command that `draw_line` writes.
- `Tortoise` (`tortoise.dfy`) holds the state and the five operations.
  Each operation is a pure function from a `World` (turtle plus the sink's
  log) to the next `World` and, except for `Reset`, the value the Guile
  procedure returns. `Session.Step` adds reset's unspecified reply.
- `Session` (`session.dfy`) runs a sequence of calls in order, as the
  shell would issue them. Its lemmas relate the final turtle and the log
  to simple summaries of the calls: number of resets, the pen's two-state
  machine, and the sum of the turn angles. It also states the square and
  pen-up scenarios.

Coordinates and angles are `real`, and all properties are proved in exact
real arithmetic. Where one of them holds in the program's doubles only up
to rounding, "## Left out" says so.

## Model

| member | source | states |
|---|---|---|
| Trig.DegreesOfRadians | tortoise.c:82-84 | converting degrees to radians and back, as turn does, returns the degrees given |
| Trig.RadiansAdditive | tortoise.c:83 | the degree-to-radian conversion of a sum is the sum of the conversions |
| Trig.DegreesAdditive | tortoise.c:84 | the radian-to-degree conversion of a sum is the sum of the conversions |
| Sink.DrawLine | tortoise.c:57-64 | the segment written starts at (x1, y1), and start plus the printed deltas is (x2, y2) |
| Sink.At | tortoise.c:61 | the parametric segment passes through its start at t = 0 and its end at t = 1 |
| Sink.DrawLineOfEndpoints | tortoise.c:57-64 | every plotted segment is the one draw_line writes for its own two end points |
| Sink.ClearsPlusPlots | tortoise.c:52-61 | the only lines the sink receives are clears and segments: the two counts add up to the log's length |
| Sink.DrawLineInjective | tortoise.c:57-64 | two draw_line calls write the same command only when all four coordinates are equal |
| Tortoise.Reset | tortoise.c:48-55 | from any state: position (0, 0), heading 0, pen down, and exactly one clear appended after the earlier log |
| Tortoise.PenDown | tortoise.c:66-71 | returns the previous pen flag; the pen ends down whatever it was; position, heading and log unchanged |
| Tortoise.PenUp | tortoise.c:73-78 | returns the previous pen flag; the pen ends up whatever it was; position, heading and log unchanged |
| Tortoise.Turn | tortoise.c:80-85 | the heading grows by the angle in radians with no wrapping; the reply is the new heading in degrees, which equals the old reported heading plus the argument; position, pen and log unchanged |
| Tortoise.Move | tortoise.c:87-101 | the new position is (x + L cos h, y + L sin h) for any L and either pen state; it is also the reply; heading and pen unchanged; with the pen down exactly one segment is appended, from the old position to the new one; with the pen up the log is unchanged |
| Tortoise.ResetForgetsTurtle | tortoise.c:48-55 | the turtle after a reset does not depend on the state before it |
| Tortoise.ResetTwice | tortoise.c:48-55 | a second reset leaves the same turtle and appends a second clear |
| Tortoise.PenToggleFeedback | tortoise.c:66-78 | with the pen down, pen-up reports true, a following pen-down reports false, and the pair restores the world |
| Tortoise.PenOperationsIdempotent | tortoise.c:66-78 | repeating a pen operation changes nothing further, and the second call reports the value the first one set |
| Tortoise.PenDoesNotAffectMovement | tortoise.c:87-98 | a move reaches the same position and heading whether the pen is up or down |
| Tortoise.ZeroMoveStillDraws | tortoise.c:90-95 | a zero-length move with the pen down leaves the turtle unchanged and still appends a degenerate segment |
| Tortoise.TurnDoesNotWrap | tortoise.c:83-84 | a turn of 360 degrees adds 2 * M_PI to the heading and 360 to the reported heading |
| Tortoise.TurnsCompose | tortoise.c:80-85 | two successive turns equal one turn by the sum of their angles, reply included |
| Session.Step | tortoise.c:48-101 | every call keeps the earlier log as a prefix and appends at most one command |
| Session.Run | tortoise.c:105-119 | the shell's loop (`scm_shell`, line 119) calls the five procedures registered at lines 105-109 one at a time and in order, and each call returns exactly one value: a run gives one reply per call |
| Session.StepIgnoresLog | tortoise.c:13-16 | no procedure reads the sink: with more commands already written, a call gives the same reply and turtle and writes the same commands after them |
| Session.LogIsWriteOnly | tortoise.c:13-16 | the turtle alone decides the future: a run from any log answers and moves as the same run from an empty log, and its log is the old one followed by what that run writes |
| Session.RunExtendsLog | tortoise.c:52-53 | over any sequence of calls the earlier log stays a prefix: no command is removed or reordered |
| Session.RunAppend | tortoise.c:13-16 | running two call sequences back to back equals running the second from the world the first leaves; the state holds everything the future depends on |
| Session.StepCounts | tortoise.c:48-101 | a single call writes a clear exactly when it is a reset (line 52) and a segment exactly when it is a move with the pen down (lines 93-95); reset and pendown lower the pen, penup raises it, turn and move leave it (lines 51, 69, 76) |
| Session.ClearsMatchResets | tortoise.c:52 | the sink receives exactly one clear per reset call |
| Session.PlotsMatchPenDownMoves | tortoise.c:66-95 | the pen flag follows the two-state pen machine of pendown and penup (lines 66-78), and the sink receives exactly one segment per move made with the pen down and none otherwise (lines 93-95) |
| Session.LogGrowth | tortoise.c:48-95 | over any sequence of calls the log grows by exactly one line per reset (line 52) plus one per move made with the pen down (lines 93-95) |
| Session.TurnsAccumulate | tortoise.c:83-84 | a run of turns adds the sum of the angles, in radians, to the heading, leaves position, pen and log alone, and its last reply is the starting heading plus the sum |
| Session.HeadingAfterRun | tortoise.c:48-85 | over any sequence of calls, the heading is 0 after the last reset (line 50), or the starting heading if there was none, plus the sum in radians of the turns since then (line 83); a turn reports that value in degrees (line 84) |
| Session.TurnSumFromZero | tortoise.c:80-85 | starting from heading 0, a run of turns reports the plain sum of its degree arguments, with no reduction modulo 360 |
| Session.PenUpSkip | tortoise.c:73-101 | reset, pen-up, move 5 ends at (5, 0), writes only the clear, and replies unspecified, true, (5, 0) |
| Session.Square | tortoise.c:80-101 | after a reset, four "move 3, turn 90" calls draw the four sides of a 3 by 3 square, end at the origin and report 360 degrees |

## Left out

- Starting and stopping gnuplot (`pipe`, `fork`, `execlp`, `fdopen`, the setup lines and `quit`, tortoise.c:18-46): process and pipe management. The model's log stands in for the pipe.
- A failed write to the sink: the C code ignores `fprintf`/`fflush` results. The model's sink always accepts a command.
- The Guile bridge (`register_functions`, `main`, `scm_with_guile`, `scm_shell`, and the boxing calls `scm_to_double`, `scm_from_bool`, `scm_list_2`; tortoise.c:103-121): foreign library calls. The operations take and return plain `real`, `bool` and `Point` values. The replies are the `Session.Reply` datatype. `Session.Run` stands in for the loop of `scm_shell` (tortoise.c:119) calling the five registered procedures one at a time.
- The `%f` text of a plot command (tortoise.c:61): printf formatting. The model keeps the four numbers of the structured `Plot` command.
- IEEE-754 doubles: the actual values of `cos`, `sin` and `M_PI`, rounding, and NaN/infinity propagation. These are uninterpreted, and arithmetic is exact over `real`. The round-trip and additivity facts below therefore hold in the program only up to rounding. For example, `(M_PI / 180.0 * 0.9) * 180.0 / M_PI` is not exactly 0.9 in doubles.
- Trig.DegreesOfRadians, Trig.RadiansAdditive, Trig.DegreesAdditive: exact over reals. In doubles the conversions neither invert nor distribute exactly.
- Tortoise.Turn: the ensures that the reply equals the old reported heading plus the argument holds only up to rounding in doubles.
- Tortoise.TurnsCompose, Tortoise.TurnDoesNotWrap: in doubles, two turns and one turn by the sum can leave directions that differ in the last bits.
- Session.TurnsAccumulate, Session.TurnSumFromZero, Session.HeadingAfterRun: the direction and the reported heading equal the exact sums only up to rounding.
- Sink.DrawLine, Tortoise.Move: the printed start plus the printed delta gives the end point only up to rounding, since `x2 - x1` is rounded. Move's ensures `End(r.0.log[|w.log|]) == r.1` is the same fact.
- Sink.DrawLineInjective, Sink.DrawLineOfEndpoints: exact over reals. In doubles, `x2 - x1` can give two different end points the same delta. Also, `%f` prints identically any coordinates that agree to six decimals.
- Session.Square assumes that `cos` and `sin` give exactly 1, 0 or -1 at the quarter turns. A real library gives values within rounding of these.
- Session.PenUpSkip assumes only `cos(0) = 1` and `sin(0) = 0`. A C library returns these exactly, so this assumption costs nothing.
- `WIDTH`/`HEIGHT` (tortoise.c:10-11): they only set the plot range, and nothing clamps the position.
