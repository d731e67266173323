/**
 * The G-code vocabulary the winding calculator emits, how each directive is
 * printed as one line of text, and how the lines are joined into a program.
 *
 * Numbers printed with Python's `:.2f` and with the default float rendering
 * are left abstract: a `Formatter` carries the two renderings as functions,
 * and every property below holds for any pair of them that never produces a
 * newline. Integers are printed in decimal, written out here.
 */
module Gcode {

  /** Where a `G1` move sends the traverse (X) axis: to the far end of the
      winding length, printed with the length's float rendering, or back to
      the start, printed as the literal `0`. */
  datatype Traverse = FarEnd(length: real) | Origin {
    function Position(): real {
      match this
      case FarEnd(l) => l
      case Origin => 0.0
    }
  }

  datatype Directive =
    | Millimetres                          // G21
    | AbsolutePositioning                  // G90
    | SpindleStart(rpm: int)               // M3 S<rpm>
    | FeedRate(rate: int)                  // F<rate>
    | RapidToOrigin                        // G0 X0 Y0
    | FiberFeedOn                          // M8
    | ExtrusionReset                       // G92 E0
    | Move(x: Traverse, y: real, e: real)  // G1 X<x> Y<y> E<e>
    | FiberFeedOff                         // M9
    | SpindleStop                          // M5
    | ProgramEnd                           // M30

  /** The two number renderings the program text uses: `fixed2` for `:.2f`,
      `repr` for a float printed without a format specification. */
  datatype Formatter = Formatter(fixed2: real -> string, repr: real -> string)

  predicate SingleLine(s: string) {
    '\n' !in s
  }

  /** A formatter is safe for line-oriented output when none of its
      renderings contains a newline. */
  ghost predicate LineSafe(fmt: Formatter) {
    forall x: real :: SingleLine(fmt.fixed2(x)) && SingleLine(fmt.repr(x))
  }

  // ---------------------------------------------------------------------
  // Decimal rendering of integers (Python's str() on an int)

  function DigitChar(d: nat): char
    requires d < 10
  {
    "0123456789"[d]
  }

  predicate IsDigit(c: char) {
    '0' <= c <= '9'
  }

  function NatText(n: nat): (r: string)
    ensures |r| >= 1
    ensures forall k :: 0 <= k < |r| ==> IsDigit(r[k])
  {
    if n < 10 then [DigitChar(n)] else NatText(n / 10) + [DigitChar(n % 10)]
  }

  function IntText(i: int): (r: string)
    ensures SingleLine(r)
  {
    if i < 0 then "-" + NatText(-i) else NatText(i)
  }

  function DigitValue(c: char): nat
    requires IsDigit(c)
  {
    (c as int) - ('0' as int)
  }

  /** The value of a string of decimal digits, read most significant first. */
  function DigitsValue(s: string): nat
    requires forall k :: 0 <= k < |s| ==> IsDigit(s[k])
  {
    if s == [] then 0 else DigitsValue(s[..|s| - 1]) * 10 + DigitValue(s[|s| - 1])
  }

  /** Reading back what `NatText` prints gives the number printed. */
  lemma {:induction false} NatTextRoundTrip(n: nat)
    ensures DigitsValue(NatText(n)) == n
  {
    var r := NatText(n);
    if n >= 10 {
      NatTextRoundTrip(n / 10);
      assert r[..|r| - 1] == NatText(n / 10);
      assert r[|r| - 1] == DigitChar(n % 10);
    } else {
      assert r == [DigitChar(n)];
    }
  }

  /** A decimal integer: digits, optionally after a minus sign. */
  predicate IsIntText(s: string) {
    if |s| >= 1 && s[0] == '-' then |s| >= 2 && forall k :: 1 <= k < |s| ==> IsDigit(s[k])
    else |s| >= 1 && forall k :: 0 <= k < |s| ==> IsDigit(s[k])
  }

  /** The value of a decimal integer. */
  function ReadInt(s: string): int
    requires IsIntText(s)
  {
    if s[0] == '-' then -(DigitsValue(s[1..]) as int) else DigitsValue(s)
  }

  /** Reading back what `IntText` prints, sign included, gives the number printed. */
  lemma IntTextRoundTrip(i: int)
    ensures IsIntText(IntText(i))
    ensures ReadInt(IntText(i)) == i
  {
    var r := IntText(i);
    if i < 0 {
      NatTextRoundTrip(-i);
      assert r[1..] == NatText(-i);
    } else {
      NatTextRoundTrip(i);
      assert IsDigit(r[0]);
    }
  }

  // ---------------------------------------------------------------------
  // Lines

  function TraverseText(x: Traverse, fmt: Formatter): string {
    match x
    case FarEnd(l) => fmt.repr(l)
    case Origin => "0"
  }

  /** The text of one directive, without its trailing comment. */
  function Render(d: Directive, fmt: Formatter): string {
    match d
    case Millimetres => "G21"
    case AbsolutePositioning => "G90"
    case SpindleStart(rpm) => "M3 S" + IntText(rpm)
    case FeedRate(rate) => "F" + IntText(rate)
    case RapidToOrigin => "G0 X0 Y0"
    case FiberFeedOn => "M8"
    case ExtrusionReset => "G92 E0"
    case Move(x, y, e) => "G1 X" + TraverseText(x, fmt) + " Y" + fmt.fixed2(y) + " E" + fmt.fixed2(e)
    case FiberFeedOff => "M9"
    case SpindleStop => "M5"
    case ProgramEnd => "M30"
  }

  function RenderAll(ds: seq<Directive>, fmt: Formatter): seq<string> {
    seq(|ds|, k requires 0 <= k < |ds| => Render(ds[k], fmt))
  }

  /** A line is a synchronized move when it starts with the `G1` word. */
  predicate IsG1Line(s: string) {
    |s| >= 3 && s[..3] == "G1 "
  }

  /** No directive spans two lines. */
  lemma RenderSingleLine(d: Directive, fmt: Formatter)
    requires LineSafe(fmt)
    ensures SingleLine(Render(d, fmt))
  {
  }

  /** The printed line is a `G1` line exactly when the directive is a move. */
  lemma RenderG1Iff(d: Directive, fmt: Formatter)
    ensures IsG1Line(Render(d, fmt)) <==> d.Move?
  {
    var s := Render(d, fmt);
    match d
    case Move(x, y, e) => assert s[..3] == "G1 ";
    case Millimetres => assert s[2] != " "[0];
    case RapidToOrigin => assert s[1] != "1"[0];
    case ExtrusionReset => assert s[1] != "1"[0];
    case AbsolutePositioning => assert s[1] != "1"[0];
    case SpindleStart(_) => assert s[0] != "G"[0];
    case FeedRate(_) => assert s[0] != "G"[0];
    case FiberFeedOn =>
    case FiberFeedOff =>
    case SpindleStop =>
    case ProgramEnd => assert s[0] != "G"[0];
  }

  // ---------------------------------------------------------------------
  // Counting moves

  function CountMoves(ds: seq<Directive>): nat {
    if ds == [] then 0 else (if ds[0].Move? then 1 else 0) + CountMoves(ds[1..])
  }

  function CountG1Lines(lines: seq<string>): nat {
    if lines == [] then 0 else (if IsG1Line(lines[0]) then 1 else 0) + CountG1Lines(lines[1..])
  }

  lemma {:induction false} CountMovesAppend(a: seq<Directive>, b: seq<Directive>)
    ensures CountMoves(a + b) == CountMoves(a) + CountMoves(b)
  {
    if a != [] {
      assert (a + b)[1..] == a[1..] + b;
      CountMovesAppend(a[1..], b);
    } else {
      assert a + b == b;
    }
  }

  lemma {:induction false} NoMovesCount(ds: seq<Directive>)
    requires forall k :: 0 <= k < |ds| ==> !ds[k].Move?
    ensures CountMoves(ds) == 0
  {
    if ds != [] {
      NoMovesCount(ds[1..]);
    }
  }

  /** Counting `G1` lines in the text counts the moves in the program. */
  lemma {:induction false} CountG1Rendered(ds: seq<Directive>, fmt: Formatter)
    ensures CountG1Lines(RenderAll(ds, fmt)) == CountMoves(ds)
  {
    if ds != [] {
      var lines := RenderAll(ds, fmt);
      assert lines[1..] == RenderAll(ds[1..], fmt);
      RenderG1Iff(ds[0], fmt);
      CountG1Rendered(ds[1..], fmt);
    }
  }

  // ---------------------------------------------------------------------
  // Joining lines (Python's "\n".join) and splitting them again

  function Join(lines: seq<string>): string {
    if |lines| == 0 then ""
    else if |lines| == 1 then lines[0]
    else lines[0] + "\n" + Join(lines[1..])
  }

  /** Python's `s.split("\n")`: the text between newlines, so always at least
      one (possibly empty) piece. */
  function Split(s: string): (r: seq<string>)
    ensures |r| >= 1
  {
    if |s| == 0 then [""]
    else
      var rest := Split(s[1..]);
      if s[0] == '\n' then [""] + rest
      else [[s[0]] + rest[0]] + rest[1..]
  }

  lemma {:induction false} SplitAfterLine(l: string, t: string)
    requires SingleLine(l)
    ensures Split(l + t) == [l + Split(t)[0]] + Split(t)[1..]
  {
    if l == [] {
      assert l + t == t;
      assert l + Split(t)[0] == Split(t)[0];
      assert Split(t) == [Split(t)[0]] + Split(t)[1..];
    } else {
      assert (l + t)[0] == l[0];
      assert (l + t)[1..] == l[1..] + t;
      SplitAfterLine(l[1..], t);
      assert [l[0]] + (l[1..] + Split(t)[0]) == l + Split(t)[0];
    }
  }

  /** Splitting the joined lines gives the lines back, provided there is at
      least one and none contains a newline. */
  lemma {:induction false} SplitJoin(lines: seq<string>)
    requires |lines| >= 1
    requires forall k :: 0 <= k < |lines| ==> SingleLine(lines[k])
    ensures Split(Join(lines)) == lines
  {
    var l := lines[0];
    if |lines| == 1 {
      SplitAfterLine(l, "");
      assert l + "" == l;
      assert Split(Join(lines)) == [l];
    } else {
      var rest := Join(lines[1..]);
      assert Join(lines) == l + ("\n" + rest);
      SplitAfterLine(l, "\n" + rest);
      assert ("\n" + rest)[0] == '\n';
      assert ("\n" + rest)[1..] == rest;
      SplitJoin(lines[1..]);
      assert Split("\n" + rest) == [""] + lines[1..];
      assert l + "" == l;
      assert ([""] + lines[1..])[1..] == lines[1..];
      assert lines == [l] + lines[1..];
    }
  }

  /** Joining the pieces of a split gives the text back. */
  lemma {:induction false} JoinSplit(s: string)
    ensures Join(Split(s)) == s
  {
    if |s| > 0 {
      var rest := Split(s[1..]);
      JoinSplit(s[1..]);
      if s[0] == '\n' {
        assert ([""] + rest)[1..] == rest;
        assert s == "\n" + s[1..];
      } else {
        var pieces := [[s[0]] + rest[0]] + rest[1..];
        if |rest| == 1 {
          assert Join(pieces) == [s[0]] + rest[0];
          assert s == [s[0]] + s[1..];
        } else {
          assert pieces[1..] == rest[1..];
          assert Join(rest) == rest[0] + "\n" + Join(rest[1..]);
          assert s == [s[0]] + s[1..];
        }
      }
    }
  }

  /** The program text: one rendered directive per line, no trailing newline. */
  function Text(ds: seq<Directive>, fmt: Formatter): string {
    Join(RenderAll(ds, fmt))
  }

  /** Reading the program text line by line gives one line per directive,
      each the rendering of that directive. */
  lemma TextLines(ds: seq<Directive>, fmt: Formatter)
    requires |ds| >= 1
    requires LineSafe(fmt)
    ensures Split(Text(ds, fmt)) == RenderAll(ds, fmt)
    ensures |Split(Text(ds, fmt))| == |ds|
  {
    var lines := RenderAll(ds, fmt);
    forall k | 0 <= k < |lines| ensures SingleLine(lines[k]) {
      RenderSingleLine(ds[k], fmt);
    }
    SplitJoin(lines);
  }
}
