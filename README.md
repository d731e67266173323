# Helical winding G-code generator, modelled in Dafny

This project models `calculate_winding` in `gcode_calculator.py`. That function turns the parameters of a
filament-winding job into a G-code program. The job parameters are the mandrel's inner diameter, the
winding length, the winding angle, the fiber thickness, the fiber length budget and the spindle speed.
The program it builds has three parts:

1. a fixed preamble of seven directives: `G21`, `G90`, `M3 S<rpm>`, `F2000`, `G0 X0 Y0`, `M8`, `G92 E0`;
2. one `G1 X.. Y.. E..` move per mandrel turn, `int(total_length / fiber_thickness)` turns in all.
   Each turn:
   - adds one circumference times tan(angle) to Y;
   - adds one fiber thickness to E;
   - sends X to the winding length on even turns and to 0 on odd turns;
   - grows the wound radius by `fiber_thickness / (2π)`;
3. a fixed postamble of four directives: `M9`, `M5`, `G0 X0 Y0`, `M30`.

The function joins the lines with newlines and returns the text.

Files:

- `gcode.dfy` (module `Gcode`) holds the directive vocabulary as a datatype. It also holds the
  one-line rendering of each directive, decimal printing of integers, and `"\n".join` together
  with its inverse, the split on newlines.
- `winding.dfy` (module `Winding`) holds the job record and the closed form of turn `i`: radius, Y, E
  and the X target. It also holds the program as a function of the job, and `CalculateWinding`.
  `CalculateWinding` is the source's loop: a `while` loop that updates the radius, Y and E
  accumulators and appends to the directive list. It is proved equal to the closed-form program.
- `properties.dfy` (module `WindingProperties`) holds the lemmas about that program.

Numbers are exact reals. The two transcendental values the source computes are inputs: `tanAngle`
stands for `math.tan(math.radians(angle))`, and `pi` stands for `math.pi` (required positive). The only
other requirement is the one the source itself imposes: a fiber thickness that is not zero, since
Python raises `ZeroDivisionError` at zero. `int()` is modelled as truncation toward zero. A negative
count gives an empty `range`, so no moves.

How numbers are printed is left abstract. A `Formatter` value carries two functions: one for `:.2f`
(used for Y and E) and one for the default float rendering (used for the `X{length}` of even moves).
The text-level lemmas hold for every formatter that never prints a newline. The odd moves print the
literal `X0`, which is why the X target is a datatype (`FarEnd(length)` or `Origin`) and not a number.

The turn count is `int()`, which truncates; the feed line is the constant `F2000`, whatever the spindle
speed; the first move goes to X = winding length (gcode_calculator.py:11, 18, 27, 33-34).

## Model

| member | source | states |
|---|---|---|
| `Winding.CalculateWinding` | gcode_calculator.py:5-47 | The directive list built by the accumulating loop equals the closed-form program: preamble, the closed-form move of each turn 0..Turns-1, postamble. The returned text is those directives rendered and joined with newlines. |
| `WindingProperties.ProgramShape` | gcode_calculator.py:14-45 | The program has 11 + Turns directives. The first seven are exactly G21, G90, M3 S<rpm>, F2000 (whatever the rpm), G0 X0 Y0, M8, G92 E0. The last four are exactly M9, M5, G0 X0 Y0, M30. Position 7+i holds the move of turn i. A directive is a move if and only if it lies between the two fixed blocks. |
| `WindingProperties.MoveCountIsTurns` | gcode_calculator.py:27-36 | The number of move directives in the program equals the turn count. |
| `WindingProperties.TurnsIsFloor` | gcode_calculator.py:11-27 | For a positive thickness and a non-negative budget, the turn count is floor(budget / thickness). That many thicknesses fit in the budget, and one more does not. |
| `WindingProperties.NoTurnsIff` | gcode_calculator.py:27 | No turns if and only if budget / thickness < 1. This covers a zero budget and a budget whose sign is opposite to the thickness's (truncation followed by an empty range). |
| `WindingProperties.EmptyBudget` | gcode_calculator.py:14-45 | With a budget of 0 the program is exactly the eleven fixed directives and has no move. |
| `WindingProperties.XAlternates` | gcode_calculator.py:33-36 | The first move goes to the far end. Consecutive moves always go to opposite ends. Move i's X is the winding length when i is even and 0 when i is odd. |
| `WindingProperties.ExtrusionIncreasing` | gcode_calculator.py:25-36 | Move i carries E = (i+1)·thickness. For a positive thickness, E strictly increases from move to move. |
| `WindingProperties.ExtrusionWithinBudget` | gcode_calculator.py:11-31 | For a positive thickness and a budget of at least one thickness, there is at least one move. The last move's E does not exceed the budget and falls short of it by less than one thickness. |
| `WindingProperties.RadiusGrows` | gcode_calculator.py:6-38 | The radius starts at inner_diameter/2. Each turn adds exactly one thickness to the circumference (2π·Δr = thickness). For a positive thickness the radius strictly grows turn over turn. |
| `WindingProperties.YClosedForm` | gcode_calculator.py:24-38 | Y after n turns (the running sum of circumference·tan) equals tan·(n·π·d + thickness·n(n−1)/2). |
| `WindingProperties.YMonotone` | gcode_calculator.py:28-30 | With tan ≥ 0, inner diameter ≥ 0 and a positive thickness, Y after i turns is at most Y after j turns whenever i ≤ j. |
| `WindingProperties.YNonDecreasing` | gcode_calculator.py:28-36 | Under the same conditions, the Y of move i is at most the Y of move j for i ≤ j. |
| `WindingProperties.FeedLine` | gcode_calculator.py:18 | The feed directive prints as `F2000`. |
| `WindingProperties.PreambleLines` | gcode_calculator.py:14-22 | The preamble prints as the seven lines G21, G90, M3 S<rpm>, F2000, G0 X0 Y0, M8, G92 E0. |
| `WindingProperties.PostambleLines` | gcode_calculator.py:40-45 | The postamble prints as the four lines M9, M5, G0 X0 Y0, M30. |
| `WindingProperties.OutputLines` | gcode_calculator.py:14-47 | Split at newlines, the returned text has 11 + Turns lines. Its first seven and last four lines are the fixed ones, line 7+i is the rendered move of turn i, and exactly Turns lines start with `G1`. |
| `Gcode.RenderG1Iff` | gcode_calculator.py:15-44 | A rendered directive starts with `G1 ` if and only if it is a move. |
| `Gcode.RenderSingleLine` | gcode_calculator.py:15-44 | No rendered directive contains a newline, given a formatter that prints none. |
| `Gcode.CountG1Rendered` | gcode_calculator.py:34-36 | The number of `G1` lines among the rendered directives equals the number of moves. |
| `Gcode.SplitJoin` | gcode_calculator.py:47 | Splitting the newline-joined text of one or more newline-free lines gives the lines back. |
| `Gcode.JoinSplit` | gcode_calculator.py:47 | Joining the pieces of any split text gives the text back. |
| `Gcode.TextLines` | gcode_calculator.py:47 | The text of a non-empty directive list reads back as one rendered line per directive. |
| `Gcode.NatTextRoundTrip` | gcode_calculator.py:17 | The decimal digits printed for a non-negative spindle speed read back as the same number. |
| `Gcode.IntTextRoundTrip` | gcode_calculator.py:17 | The printed spindle speed, a minus sign included when it is negative, is a well-formed decimal integer that reads back as the same number. |

## Left out

- The tkinter window, labels, entries, button and main loop (gcode_calculator.py:54-99) are user interface.
- Parsing the entries with `float()`/`int()` and the `ValueError` message box (gcode_calculator.py:56-61, 69-70) are input handling. The model takes the parsed values.
- The factor of 1000 applied to the fiber length at gcode_calculator.py:60 is left out. The label there says km, while the comment says mm. This conversion happens in the GUI handler; the model takes the budget in the units `calculate_winding` receives.
- The save dialog and the file write (gcode_calculator.py:49-50, 63-65) are I/O. The `filename` argument is used only by that write, so it is not modelled.
- Floating point is left out: `math.tan`, `math.radians`, `math.pi` and float rounding become exact real arithmetic, with tan(angle) and π as inputs. This can change the number of moves, not only their digits: in floats `0.3 / 0.1` is `2.9999999999999996`, so `int()` gives 2 turns where the model's exact quotient 3 gives 3 turns, and the program then has one line fewer.
- A fiber thickness of 0 is excluded by a precondition (`Computable`). The source raises `ZeroDivisionError` at gcode_calculator.py:11 in that case; the model has no error result for it.
- Number printing is left out: `:.2f` and Python's float rendering are abstract functions in a `Formatter`, so the text-level lemmas hold for any newline-free formatting and say nothing about digits.
- The Ukrainian `;` comments after each fixed directive are not rendered. A rendered fixed line is the directive word alone, e.g. `G21`.
- `rpm` is modelled as an integer, the type the GUI passes. The source formats whatever value it receives.
