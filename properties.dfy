/**
 * What the winding program promises: its fixed frame, how many moves it
 * holds, and how the X, Y and E values of those moves behave.
 */
module WindingProperties {
  import opened Gcode
  import opened Winding

  // ---------------------------------------------------------------------
  // The moves block

  lemma {:induction false} MovesIndex(job: Job, pi: real, n: nat)
    requires pi > 0.0
    ensures |Moves(job, pi, n)| == n
    ensures forall i :: 0 <= i < n ==> Moves(job, pi, n)[i] == MoveAt(job, pi, i)
  {
    if n > 0 {
      MovesIndex(job, pi, n - 1);
    }
  }

  lemma {:induction false} MovesCount(job: Job, pi: real, n: nat)
    requires pi > 0.0
    ensures CountMoves(Moves(job, pi, n)) == n
  {
    if n > 0 {
      MovesCount(job, pi, n - 1);
      CountMovesAppend(Moves(job, pi, n - 1), [MoveAt(job, pi, n - 1)]);
    }
  }

  // ---------------------------------------------------------------------
  // Shape of the program

  /** Seven fixed directives, then move i at position 7 + i for every turn,
      then four fixed directives; a directive is a move exactly when it lies
      between the two fixed blocks. */
  lemma ProgramShape(job: Job, pi: real)
    requires Computable(job, pi)
    ensures |Program(job, pi)| == 11 + Turns(job)
    ensures Program(job, pi)[..7] ==
      [Millimetres, AbsolutePositioning, SpindleStart(job.rpm), FeedRate(2000),
       RapidToOrigin, FiberFeedOn, ExtrusionReset]
    ensures Program(job, pi)[7 + Turns(job)..] ==
      [FiberFeedOff, SpindleStop, RapidToOrigin, ProgramEnd]
    ensures forall i :: 0 <= i < Turns(job) ==> Program(job, pi)[7 + i] == MoveAt(job, pi, i)
    ensures forall k :: 0 <= k < |Program(job, pi)| ==>
      (Program(job, pi)[k].Move? <==> 7 <= k < 7 + Turns(job))
  {
    var n := Turns(job);
    var p := Program(job, pi);
    MovesIndex(job, pi, n);
    var ms := Moves(job, pi, n);
    assert p == Preamble(job.rpm) + ms + Postamble();
    assert p[..7] == Preamble(job.rpm);
    assert p[7 + n..] == Postamble();
    forall k | 0 <= k < |p| ensures p[k].Move? <==> 7 <= k < 7 + n {
      if k < 7 {
        assert p[k] == Preamble(job.rpm)[k];
      } else if k < 7 + n {
        assert p[k] == ms[k - 7];
      } else {
        assert p[k] == Postamble()[k - 7 - n];
      }
    }
  }

  /** The number of moves is the number of turns. */
  lemma MoveCountIsTurns(job: Job, pi: real)
    requires Computable(job, pi)
    ensures CountMoves(Program(job, pi)) == Turns(job)
  {
    var ms := Moves(job, pi, Turns(job));
    MovesCount(job, pi, Turns(job));
    NoMovesCount(Preamble(job.rpm));
    NoMovesCount(Postamble());
    CountMovesAppend(Preamble(job.rpm), ms);
    CountMovesAppend(Preamble(job.rpm) + ms, Postamble());
  }

  // ---------------------------------------------------------------------
  // Turn count

  lemma MulMonotone(a: real, b: real, c: real)
    requires a <= b && c > 0.0
    ensures a * c <= b * c
  {
  }

  lemma MulStrict(a: real, b: real, c: real)
    requires a < b && c > 0.0
    ensures a * c < b * c
  {
  }

  /** For a positive thickness and a non-negative budget the turn count is
      the floor of budget / thickness: the largest whole number of
      thicknesses that fit in the budget. */
  lemma TurnsIsFloor(job: Job)
    requires job.fiberThickness > 0.0 && job.totalLength >= 0.0
    ensures Turns(job) == (job.totalLength / job.fiberThickness).Floor
    ensures (Turns(job) as real) * job.fiberThickness <= job.totalLength
    ensures job.totalLength < ((Turns(job) + 1) as real) * job.fiberThickness
  {
    var ft := job.fiberThickness;
    var q := job.totalLength / ft;
    var n := Turns(job);
    assert q >= 0.0;
    assert n == q.Floor;
    assert (n as real) <= q < (n as real) + 1.0;
    assert ((n + 1) as real) == (n as real) + 1.0;
    assert q * ft == job.totalLength;
    MulMonotone(n as real, q, ft);
    var m := (n + 1) as real;
    MulStrict(q, m, ft);
    assert job.totalLength < m * ft;
  }

  /** No turn at all exactly when the budget is less than one thickness
      (measured in thicknesses); this includes a budget of 0 and a budget
      whose sign differs from the thickness's. */
  lemma NoTurnsIff(job: Job)
    requires job.fiberThickness != 0.0
    ensures Turns(job) == 0 <==> job.totalLength / job.fiberThickness < 1.0
  {
    var q := job.totalLength / job.fiberThickness;
    if q >= 1.0 {
      assert q.Floor >= 1;
    }
  }

  /** With a budget of 0 the program is the eleven fixed directives. */
  lemma EmptyBudget(job: Job, pi: real)
    requires Computable(job, pi) && job.totalLength == 0.0
    ensures Program(job, pi) ==
      [Millimetres, AbsolutePositioning, SpindleStart(job.rpm), FeedRate(2000),
       RapidToOrigin, FiberFeedOn, ExtrusionReset,
       FiberFeedOff, SpindleStop, RapidToOrigin, ProgramEnd]
  {
    NoTurnsIff(job);
    assert Turns(job) == 0;
  }

  // ---------------------------------------------------------------------
  // X

  /** The first move goes to the far end, and consecutive moves always go to
      opposite ends: the far end of the winding length after an even number
      of turns, 0 after an odd one. */
  lemma XAlternates(job: Job, pi: real, i: nat)
    requires pi > 0.0
    ensures MoveAt(job, pi, 0).x == FarEnd(job.length)
    ensures (MoveAt(job, pi, i).x == FarEnd(job.length) && MoveAt(job, pi, i + 1).x == Origin) ||
            (MoveAt(job, pi, i).x == Origin && MoveAt(job, pi, i + 1).x == FarEnd(job.length))
    ensures MoveAt(job, pi, i).x.Position() == if i % 2 == 0 then job.length else 0.0
  {
  }

  // ---------------------------------------------------------------------
  // E

  /** Move i carries an extrusion of (i + 1) thicknesses, so with a positive
      thickness the extrusion strictly increases from move to move. */
  lemma ExtrusionIncreasing(job: Job, pi: real, i: nat, j: nat)
    requires pi > 0.0
    ensures MoveAt(job, pi, i).e == ((i + 1) as real) * job.fiberThickness
    ensures job.fiberThickness > 0.0 && i < j ==> MoveAt(job, pi, i).e < MoveAt(job, pi, j).e
  {
    if job.fiberThickness > 0.0 && i < j {
      MulStrict((i + 1) as real, (j + 1) as real, job.fiberThickness);
    }
  }

  /** The extrusion of the last move never exceeds the fiber budget, and
      falls short of it by less than one thickness. */
  lemma ExtrusionWithinBudget(job: Job, pi: real)
    requires pi > 0.0 && job.fiberThickness > 0.0 && job.totalLength >= job.fiberThickness
    ensures Turns(job) >= 1
    ensures MoveAt(job, pi, Turns(job) - 1).e <= job.totalLength
    ensures job.totalLength < MoveAt(job, pi, Turns(job) - 1).e + job.fiberThickness
  {
    NoTurnsIff(job);
    TurnsIsFloor(job);
  }

  // ---------------------------------------------------------------------
  // Radius

  /** Each turn adds one thickness to the circumference, and with a positive
      thickness the radius strictly grows turn over turn. */
  lemma RadiusGrows(job: Job, pi: real, i: nat, j: nat)
    requires pi > 0.0 && job.fiberThickness > 0.0 && i < j
    ensures Radius(job, pi, 0) == job.innerDiameter / 2.0
    ensures 2.0 * pi * (Radius(job, pi, i + 1) - Radius(job, pi, i)) == job.fiberThickness
    ensures Radius(job, pi, i) < Radius(job, pi, j)
  {
    var c := RadiusStep(job, pi);
    assert 2.0 * pi * c == job.fiberThickness;
    assert c > 0.0;
    assert Radius(job, pi, i + 1) - Radius(job, pi, i) == c;
    MulStrict(i as real, j as real, c);
  }

  // ---------------------------------------------------------------------
  // Y

  /** Closed form of Y after n turns: tan(angle) times the n circumferences
      of the bare mandrel plus one thickness for each of the n(n-1)/2 wraps
      already laid under them. */
  lemma {:induction false} YClosedForm(job: Job, pi: real, n: nat)
    requires pi > 0.0
    ensures Y(job, pi, n) == job.tanAngle *
      ((n as real) * pi * job.innerDiameter + job.fiberThickness * ((n as real) * ((n as real) - 1.0) / 2.0))
  {
    if n > 0 {
      var m := n - 1;
      YClosedForm(job, pi, m);
      var c := RadiusStep(job, pi);
      assert 2.0 * pi * c == job.fiberThickness;
      var circ := 2.0 * pi * Radius(job, pi, m);
      assert circ == pi * job.innerDiameter + (m as real) * job.fiberThickness by {
        assert circ == 2.0 * pi * (job.innerDiameter / 2.0) + (m as real) * (2.0 * pi * c);
      }
      assert StepY(job, pi, m) == circ * job.tanAngle;
      var mr := m as real;
      assert (n as real) == mr + 1.0;
      assert mr * (mr - 1.0) / 2.0 + mr == (mr + 1.0) * mr / 2.0;
    }
  }

  lemma {:induction false} YMonotone(job: Job, pi: real, i: nat, j: nat)
    requires pi > 0.0 && job.tanAngle >= 0.0 && job.innerDiameter >= 0.0 && job.fiberThickness > 0.0
    requires i <= j
    ensures Y(job, pi, i) <= Y(job, pi, j)
  {
    if i < j {
      YMonotone(job, pi, i, j - 1);
      var r := Radius(job, pi, j - 1);
      assert r >= 0.0 by {
        assert RadiusStep(job, pi) > 0.0;
        assert ((j - 1) as real) * RadiusStep(job, pi) >= 0.0;
      }
      assert 2.0 * pi * r >= 0.0;
      assert StepY(job, pi, j - 1) >= 0.0;
    }
  }

  /** For a non-negative angle (tangent), a non-negative inner diameter and a
      positive thickness, Y never decreases from move to move. */
  lemma YNonDecreasing(job: Job, pi: real, i: nat, j: nat)
    requires pi > 0.0 && job.tanAngle >= 0.0 && job.innerDiameter >= 0.0 && job.fiberThickness > 0.0
    requires i <= j
    ensures MoveAt(job, pi, i).y <= MoveAt(job, pi, j).y
  {
    YMonotone(job, pi, i + 1, j + 1);
  }

  // ---------------------------------------------------------------------
  // The text

  lemma {:induction false} FeedLine(fmt: Formatter)
    ensures Render(FeedRate(InitialFeed), fmt) == "F2000"
  {
    assert NatText(2) == "2";
    assert NatText(20) == "20";
    assert NatText(200) == "200";
    assert NatText(2000) == "2000";
  }

  lemma PreambleLines(rpm: int, fmt: Formatter)
    ensures RenderAll(Preamble(rpm), fmt) ==
      ["G21", "G90", "M3 S" + IntText(rpm), "F2000", "G0 X0 Y0", "M8", "G92 E0"]
  {
    FeedLine(fmt);
    var r := RenderAll(Preamble(rpm), fmt);
    assert r[3] == Render(FeedRate(InitialFeed), fmt);
  }

  lemma PostambleLines(fmt: Formatter)
    ensures RenderAll(Postamble(), fmt) == ["M9", "M5", "G0 X0 Y0", "M30"]
  {
  }

  /** The returned text read line by line: the seven preamble lines, one
      `G1` line per turn and nothing else starting with `G1`, then the four
      postamble lines. */
  lemma OutputLines(job: Job, pi: real, fmt: Formatter)
    requires Computable(job, pi) && LineSafe(fmt)
    ensures |Split(Text(Program(job, pi), fmt))| == 11 + Turns(job)
    ensures Split(Text(Program(job, pi), fmt))[..7] ==
      ["G21", "G90", "M3 S" + IntText(job.rpm), "F2000", "G0 X0 Y0", "M8", "G92 E0"]
    ensures Split(Text(Program(job, pi), fmt))[7 + Turns(job)..] == ["M9", "M5", "G0 X0 Y0", "M30"]
    ensures forall i :: 0 <= i < Turns(job) ==>
      Split(Text(Program(job, pi), fmt))[7 + i] == Render(MoveAt(job, pi, i), fmt)
    ensures CountG1Lines(Split(Text(Program(job, pi), fmt))) == Turns(job)
  {
    var p := Program(job, pi);
    var n := Turns(job);
    ProgramShape(job, pi);
    TextLines(p, fmt);
    var lines := Split(Text(p, fmt));
    assert lines == RenderAll(p, fmt);
    assert lines[..7] == RenderAll(p[..7], fmt);
    PreambleLines(job.rpm, fmt);
    assert lines[7 + n..] == RenderAll(p[7 + n..], fmt);
    PostambleLines(fmt);
    MoveCountIsTurns(job, pi);
    CountG1Rendered(p, fmt);
  }
}
