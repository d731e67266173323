/**
 * The helical winding toolpath of `calculate_winding`: a fixed preamble, one
 * `G1` move per mandrel turn, a fixed postamble.
 *
 * Exact real arithmetic stands in for Python floats. The two transcendental
 * values the source computes, `math.tan(math.radians(angle))` and
 * `math.pi`, are inputs: `tanAngle` in the job, `pi` as a parameter.
 */
module Winding {
  import opened Gcode

  /** The arguments of one call: mandrel inner diameter, winding length,
      tangent of the winding angle, fiber thickness, fiber length budget and
      spindle speed. */
  datatype Job = Job(
    innerDiameter: real,
    length: real,
    tanAngle: real,
    fiberThickness: real,
    totalLength: real,
    rpm: int)

  /** What the computation itself needs: a positive pi, and a fiber thickness
      it can divide by (at zero the source raises ZeroDivisionError). */
  predicate Computable(job: Job, pi: real) {
    pi > 0.0 && job.fiberThickness != 0.0
  }

  /** The feed rate the preamble sets; it does not depend on the spindle speed. */
  const InitialFeed: int := 2000

  function Preamble(rpm: int): seq<Directive> {
    [Millimetres, AbsolutePositioning, SpindleStart(rpm), FeedRate(InitialFeed),
     RapidToOrigin, FiberFeedOn, ExtrusionReset]
  }

  function Postamble(): seq<Directive> {
    [FiberFeedOff, SpindleStop, RapidToOrigin, ProgramEnd]
  }

  // ---------------------------------------------------------------------
  // Closed forms for turn i

  /** Python's int() on a float: truncation toward zero. */
  function PyInt(x: real): int {
    if x >= 0.0 then x.Floor else -((-x).Floor)
  }

  /** How many times `for i in range(int(turns))` runs; a negative bound
      gives an empty range. */
  function Turns(job: Job): nat
    requires job.fiberThickness != 0.0
  {
    var k := PyInt(job.totalLength / job.fiberThickness);
    if k < 0 then 0 else k
  }

  /** The radius gained per turn. */
  function RadiusStep(job: Job, pi: real): real
    requires pi > 0.0
  {
    job.fiberThickness / (2.0 * pi)
  }

  /** The wound radius during turn i (0-based). */
  function Radius(job: Job, pi: real, i: nat): real
    requires pi > 0.0
  {
    job.innerDiameter / 2.0 + (i as real) * RadiusStep(job, pi)
  }

  /** The axial advance of turn i: its circumference times tan(angle). */
  function StepY(job: Job, pi: real, i: nat): real
    requires pi > 0.0
  {
    2.0 * pi * Radius(job, pi, i) * job.tanAngle
  }

  /** Y after n turns: the sum of the first n advances. */
  function Y(job: Job, pi: real, n: nat): real
    requires pi > 0.0
  {
    if n == 0 then 0.0 else Y(job, pi, n - 1) + StepY(job, pi, n - 1)
  }

  /** Extrusion after n turns. */
  function E(job: Job, n: nat): real {
    (n as real) * job.fiberThickness
  }

  /** Even turns go to the far end of the winding length, odd ones back to 0. */
  function TraverseAt(job: Job, i: nat): Traverse {
    if i % 2 == 0 then FarEnd(job.length) else Origin
  }

  /** The move emitted on turn i. */
  function MoveAt(job: Job, pi: real, i: nat): Directive
    requires pi > 0.0
  {
    Move(TraverseAt(job, i), Y(job, pi, i + 1), E(job, i + 1))
  }

  /** The moves of the first n turns. */
  function Moves(job: Job, pi: real, n: nat): seq<Directive>
    requires pi > 0.0
  {
    if n == 0 then [] else Moves(job, pi, n - 1) + [MoveAt(job, pi, n - 1)]
  }

  /** The whole program, as a list of directives. */
  function Program(job: Job, pi: real): seq<Directive>
    requires Computable(job, pi)
  {
    Preamble(job.rpm) + Moves(job, pi, Turns(job)) + Postamble()
  }

  // ---------------------------------------------------------------------
  // The generator

  /** Builds the directive list turn by turn, updating the radius, Y and
      extrusion accumulators, and joins the rendered lines with newlines. */
  method CalculateWinding(job: Job, pi: real, fmt: Formatter) returns (gcode: seq<Directive>, output: string)
    requires Computable(job, pi)
    ensures gcode == Program(job, pi)
    ensures output == Text(gcode, fmt)
  {
    var innerRadius := job.innerDiameter / 2.0;
    var outerRadius := innerRadius;
    var turns := job.totalLength / job.fiberThickness;
    gcode := [Millimetres, AbsolutePositioning, SpindleStart(job.rpm), FeedRate(2000),
              RapidToOrigin, FiberFeedOn, ExtrusionReset];
    var yPos := 0.0;
    var eValue := 0.0;
    var count := PyInt(turns);
    var i := 0;
    while i < count
      invariant 0 <= i && (i == 0 || i <= count)
      invariant outerRadius == Radius(job, pi, i)
      invariant yPos == Y(job, pi, i)
      invariant eValue == E(job, i)
      invariant gcode == Preamble(job.rpm) + Moves(job, pi, i)
    {
      var circumference := 2.0 * pi * outerRadius;
      var stepY := circumference * job.tanAngle;
      yPos := yPos + stepY;
      eValue := eValue + job.fiberThickness;
      assert eValue == E(job, i + 1);
      if i % 2 == 0 {
        gcode := gcode + [Move(FarEnd(job.length), yPos, eValue)];
      } else {
        gcode := gcode + [Move(Origin, yPos, eValue)];
      }
      outerRadius := outerRadius + job.fiberThickness / (2.0 * pi);
      assert outerRadius == Radius(job, pi, i + 1);
      i := i + 1;
    }
    assert i == Turns(job);
    gcode := gcode + [FiberFeedOff, SpindleStop, RapidToOrigin, ProgramEnd];
    output := Join(RenderAll(gcode, fmt));
  }
}
