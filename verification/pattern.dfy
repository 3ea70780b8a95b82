/** The calibration pattern (src/lib/TestPatternGenerator.ts) as the list
    of G-code commands it prints, in order. A move holds its target in
    the pattern's design coordinates; its text, given by `Render`, rotates
    the target about the bed centre by the print direction and rounds it,
    and an extruding move's text derives the filament from the segment's
    length. Cosine and sine are an oracle; every number is an exact
    real. */
module Pattern {
  import opened Wrappers
  import opened Numbers
  import opened Decimal
  import Settings

  /** `LINE_SPACING`: the distance between two test lines, in mm. */
  const LineSpacing: real := 4.0

  function Abs(x: real): (a: real)
    ensures a >= 0.0 && (a == x || a == -x)
  {
    if x < 0.0 then -x else x
  }

  /** `Math.cos` and `Math.sin` of an angle given in degrees. */
  datatype Trig = Trig(cosDeg: real -> real, sinDeg: real -> real)

  /** What generating or validating the pattern throws. */
  datatype PatternError =
    | UnknownGlyph
    | TooBigForRoundBed(fitWidth: real, fitHeight: real)
    | TooBigForBed(fitWidth: real, fitHeight: real)

  /** The three acceleration settings `setAcceleration` chooses from. */
  datatype Rate = PrintRate | TravelRate | TestRate

  function RateName(rate: Rate): string {
    match rate
    case PrintRate => "print"
    case TravelRate => "travel"
    case TestRate => "test"
  }

  /** One emitted G-code line. Notes are the trailing comments, newline
      included; an extruding move holds the length of its segment and the
      extrusion multiplier in force. */
  datatype Command =
    | Preamble(fanDuty: real)
    | Comment(text: string)
    | Lift(z: real, feed: real, note: string)
    | SetAcceleration(rate: Rate, p: real, t: real)
    | Efeed(retract: bool, dist: real, feed: real)
    | Travel(x: real, y: real, feed: real)
    | Extrude(x: real, y: real, length: real, mult: real, feed: real, note: string)
    | SetAdvance(prefix: string, value: Option<real>, note: string)
    | Display(value: Option<real>)

  /** The text of a command; a missing value prints as `undefined`. The
      comment block in front of `G92` (printer, filament, date and the
      settings) is not modelled; `fanDuty` is the already scaled `M106`
      argument. */
  function Render(c: Command, b: BasicSettings, nt: NumberText): string {
    var show := (x: real) => nt.show(Num(x));
    match c
    case Preamble(duty) =>
      "G92 E0 ; Reset extruder distance\n" + "M106 S" + show(duty) + " ; Start print fan\n"
    case Comment(text) => ";" + text + "\n"
    case Lift(z, feed, note) => "G1 Z" + show(z) + " F" + show(feed) + note
    case SetAcceleration(rate, p, t) => "M204 P" + show(p) + " T" + show(t) + "; Set " + RateName(rate) + " acceleration\n"
    case Efeed(retract, dist, feed) =>
      if retract then "G1 E-" + show(dist) + " F" + show(feed) + " ; retract\n"
      else "G1 E" + show(dist) + " F" + show(feed) + " ; un-retract\n"
    case Travel(x, y, feed) =>
      "G1 X" + show(WrittenX(x, y, b)) + " Y" + show(WrittenY(x, y, b)) + " F" + show(feed) + " ; move to start\n"
    case Extrude(x, y, length, mult, feed, note) =>
      "G1 X" + show(WrittenX(x, y, b)) + " Y" + show(WrittenY(x, y, b)) + " E" + show(WrittenFilament(length, mult, b))
        + " F" + show(feed) + note
    case SetAdvance(prefix, value, note) =>
      prefix + (if value.Some? then show(value.value) else "undefined") + note
    case Display(value) =>
      if value.Some? then "M117 Pressure Advance = " + show(value.value) + " ; \n" else "M117 Pressure Advance = \n"
  }

  /** `BasicSettings`: speeds in mm/min, accelerations, the pattern's
      centre and rotation, and the extrusion parameters. */
  datatype BasicSettings = BasicSettings(
    slowSpeed: real,
    fastSpeed: real,
    printSpeed: real,
    travelSpeed: real,
    travelSpeedZ: real,
    printAcceleration: real,
    travelAcceleration: real,
    testAcceleration: real,
    zHopHeight: real,
    centerX: real,
    centerY: real,
    printDir: real,
    lineWidth: real,
    extRatio: real,
    extMult: real,
    retractDist: real,
    unretractDist: real,
    retractSpeed: real,
    unretractSpeed: real,
    trig: Trig)

  /** The print direction leaves the pattern as designed. */
  predicate Unrotated(b: BasicSettings) {
    b.trig.cosDeg(b.printDir) == 1.0 && b.trig.sinDeg(b.printDir) == 0.0
  }

  /** `rotateX`: clockwise rotation about the centre, x coordinate. */
  function RotateX(x: real, y: real, b: BasicSettings): (r: real)
    ensures Unrotated(b) ==> r == x
  {
    b.trig.cosDeg(b.printDir) * (x - b.centerX) + b.trig.sinDeg(b.printDir) * (y - b.centerY) + b.centerX
  }

  /** `rotateY`: clockwise rotation about the centre, y coordinate. */
  function RotateY(x: real, y: real, b: BasicSettings): (r: real)
    ensures Unrotated(b) ==> r == y
  {
    b.trig.cosDeg(b.printDir) * (y - b.centerY) - b.trig.sinDeg(b.printDir) * (x - b.centerX) + b.centerY
  }

  // ---------------------------------------------------------------------
  // The building blocks

  /** `setAcceleration`: `M204` with the same value for print (P) and
      travel (T) moves, the value of the chosen setting. */
  function Acceleration(rate: Rate, b: BasicSettings): (c: Command)
    ensures c.SetAcceleration? && c.rate == rate && c.p == c.t
    ensures rate == PrintRate ==> c.p == b.printAcceleration
    ensures rate == TravelRate ==> c.p == b.travelAcceleration
    ensures rate == TestRate ==> c.p == b.testAcceleration
  {
    var feedRate := match rate
      case PrintRate => b.printAcceleration
      case TravelRate => b.travelAcceleration
      case TestRate => b.testAcceleration;
    SetAcceleration(rate, feedRate, feedRate)
  }

  /** Both `M204` parameters print the same text. */
  lemma AccelerationText(rate: Rate, b: BasicSettings, nt: NumberText)
    ensures var v := Acceleration(rate, b).p;
      Render(Acceleration(rate, b), b, nt)
        == "M204 P" + nt.show(Num(v)) + " T" + nt.show(Num(v)) + "; Set " + RateName(rate) + " acceleration\n"
  {
  }

  /** `doEfeed`: direction `+` un-retracts by the un-retract distance, any
      other direction retracts by the retract distance. */
  function DoEfeed(dir: string, b: BasicSettings): (c: Command)
    ensures c.Efeed? && (c.retract <==> dir != "+")
    ensures c.retract ==> c.dist == b.retractDist && c.feed == b.retractSpeed
    ensures !c.retract ==> c.dist == b.unretractDist && c.feed == b.unretractSpeed
  {
    if dir == "+" then Efeed(false, b.unretractDist, b.unretractSpeed)
    else Efeed(true, b.retractDist, b.retractSpeed)
  }

  function Unretract(b: BasicSettings): Command {
    DoEfeed("+", b)
  }

  function Retract(b: BasicSettings): Command {
    DoEfeed("-", b)
  }

  /** A retraction always prints a negative extruder move, whatever the
      distance setting holds. */
  lemma RetractTextIsNegative(dir: string, b: BasicSettings, nt: NumberText)
    requires dir != "+"
    ensures var t := Render(DoEfeed(dir, b), b, nt);
      |t| >= 5 && t[..5] == "G1 E-"
  {
  }

  /** `zHop`: lift to the hop height rounded up to three places. */
  function ZHop(b: BasicSettings): (c: Command)
    ensures c.Lift? && c.feed == b.travelSpeedZ && OnThousandths(c.z)
    ensures b.zHopHeight >= 0.0 ==> b.zHopHeight <= c.z < b.zHopHeight + 0.001
  {
    Lift(RoundAway3(b.zHopHeight), b.travelSpeedZ, " ; zHop\n")
  }

  /** The filament a line of the given length needs before rounding. */
  function ExtrusionOf(ratio: real, mult: real, length: real): (e: real)
    ensures ratio >= 0.0 && mult >= 0.0 ==> e >= 0.0
  {
    var m := ratio * mult;
    assert ratio >= 0.0 && mult >= 0.0 ==> m >= 0.0;
    m * Abs(length)
  }

  /** The coordinates a move to the design point `(x, y)` prints: rotated,
      then rounded up to four places. */
  function WrittenX(x: real, y: real, b: BasicSettings): real {
    RoundAway4(RotateX(x, y, b))
  }

  function WrittenY(x: real, y: real, b: BasicSettings): real {
    RoundAway4(RotateY(x, y, b))
  }

  /** The filament an extruding move prints, rounded up to four places. */
  function WrittenFilament(length: real, mult: real, b: BasicSettings): real {
    RoundAway4(ExtrusionOf(b.extRatio, mult, length))
  }

  /** The printed filament is never negative for non-negative ratio and
      multiplier, whatever the line's direction, and it is the exact
      amount rounded up by less than a ten-thousandth. */
  lemma FilamentNeverNegative(length: real, mult: real, b: BasicSettings)
    requires b.extRatio >= 0.0 && mult >= 0.0
    ensures var e := ExtrusionOf(b.extRatio, mult, length);
      0.0 <= e <= WrittenFilament(length, mult, b) < e + 0.0001
    ensures WrittenFilament(length, mult, b) == WrittenFilament(-length, mult, b)
  {
    assert Abs(-length) == Abs(length);
    assert ExtrusionOf(b.extRatio, mult, -length) == ExtrusionOf(b.extRatio, mult, length);
  }

  const PrintNote := " ; print line\n"

  /** `createLine`: an extruding move to the design point `(x, y)`. */
  function CreateLine(x: real, y: real, length: real, feed: real, extMult: real, note: string): Command {
    Extrude(x, y, length, extMult, feed, note)
  }

  /** `createLine` with its defaults: print speed, the configured
      multiplier, the `print line` comment. */
  function PrintLine(x: real, y: real, length: real, b: BasicSettings): Command {
    CreateLine(x, y, length, b.printSpeed, b.extMult, PrintNote)
  }

  /** `moveTo`: travel acceleration, the travel move, print acceleration. */
  function MoveTo(x: real, y: real, b: BasicSettings): (r: seq<Command>)
    ensures |r| == 3
    ensures r[0] == Acceleration(TravelRate, b) && r[2] == Acceleration(PrintRate, b)
    ensures r[1] == Travel(x, y, b.travelSpeed)
  {
    [Acceleration(TravelRate, b), Travel(x, y, b.travelSpeed), Acceleration(PrintRate, b)]
  }

  /** Without rotation a move is written as its target rounded up to four
      places. */
  lemma UnrotatedMoveLandsOnTarget(x: real, y: real, b: BasicSettings)
    requires Unrotated(b) && x >= 0.0 && y >= 0.0
    ensures var m := MoveTo(x, y, b)[1];
      x <= WrittenX(m.x, m.y, b) < x + 0.0001 && y <= WrittenY(m.x, m.y, b) < y + 0.0001
  {
  }

  // ---------------------------------------------------------------------
  // The test lines

  /** `PatternSettings`. */
  datatype PatternSettings = PatternSettings(
    advanceGCodePrefix: string,
    lengthSlow: real,
    lengthFast: real,
    advanceLines: seq<real>,
    lineSpacing: real)

  /** The y offset of test line `i`: the running sum of the spacing. */
  function Offset(i: nat, spacing: real): real {
    if i == 0 then 0.0 else Offset(i - 1, spacing) + spacing
  }

  /** The running offset of line `i` is `i` spacings. */
  lemma {:induction false} OffsetIsProduct(i: nat, spacing: real)
    ensures Offset(i, spacing) == i as real * spacing
  {
    if i > 0 {
      OffsetIsProduct(i - 1, spacing);
      assert (i - 1) as real * spacing + spacing == i as real * spacing;
    }
  }

  const SetAdvanceNote := " ; set Pressure Advance\n"

  /** The slow, fast and slow segments of one test line at height `y`. */
  function TestLine(startX: real, y: real, b: BasicSettings, p: PatternSettings): (r: seq<Command>)
    ensures |r| == 3
    ensures r[0].Extrude? && r[0].feed == b.slowSpeed
    ensures r[1].Extrude? && r[1].feed == b.fastSpeed
    ensures r[2].Extrude? && r[2].feed == b.slowSpeed
  {
    [CreateLine(startX + p.lengthSlow, y, p.lengthSlow, b.slowSpeed, b.extMult, PrintNote),
     CreateLine(startX + p.lengthSlow + p.lengthFast, y, p.lengthFast, b.fastSpeed, b.extMult, PrintNote),
     CreateLine(startX + 2.0 * p.lengthSlow + p.lengthFast, y, p.lengthSlow, b.slowSpeed, b.extMult, PrintNote)]
  }

  /** Everything `createStdPattern` prints for test value `i`: set and
      show the value, un-retract, test acceleration, the line, print
      acceleration, retract, and a move to the next line unless `i` is
      the last. */
  function ValueBlock(i: nat, startX: real, startY: real, b: BasicSettings, p: PatternSettings): seq<Command>
    requires i < |p.advanceLines|
  {
    var v := RoundAway3(p.advanceLines[i]);
    var y := startY + Offset(i, p.lineSpacing);
    [SetAdvance(p.advanceGCodePrefix, Some(v), SetAdvanceNote), Display(Some(v)), Unretract(b), Acceleration(TestRate, b)]
    + TestLine(startX, y, b, p)
    + [Acceleration(PrintRate, b), Retract(b)]
    + (if i != |p.advanceLines| - 1 then MoveTo(startX, y + p.lineSpacing, b) else [])
  }

  /** The blocks of the first `n` test values. */
  function StdBlocks(startX: real, startY: real, b: BasicSettings, p: PatternSettings, n: nat): seq<Command>
    requires n <= |p.advanceLines|
  {
    if n == 0 then [] else StdBlocks(startX, startY, b, p, n - 1) + ValueBlock(n - 1, startX, startY, b, p)
  }

  /** The whole standard pattern: every value's block, then print
      acceleration. */
  function StdPattern(startX: real, startY: real, b: BasicSettings, p: PatternSettings): seq<Command> {
    StdBlocks(startX, startY, b, p, |p.advanceLines|) + [Acceleration(PrintRate, b)]
  }

  /** `createStdPattern`, with its running line offset. */
  method CreateStdPattern(startX: real, startY: real, b: BasicSettings, p: PatternSettings) returns (gcode: seq<Command>)
    ensures gcode == StdPattern(startX, startY, b, p)
  {
    var lineOffset := 0.0;
    gcode := [];
    var i := 0;
    while i < |p.advanceLines|
      invariant 0 <= i <= |p.advanceLines|
      invariant lineOffset == Offset(i, p.lineSpacing)
      invariant gcode == StdBlocks(startX, startY, b, p, i)
    {
      var paValue := p.advanceLines[i];
      var shown := RoundAway3(paValue);
      var y := startY + lineOffset;
      var block := [SetAdvance(p.advanceGCodePrefix, Some(shown), SetAdvanceNote), Display(Some(shown)), DoEfeed("+", b),
                    Acceleration(TestRate, b)]
        + TestLine(startX, y, b, p)
        + [Acceleration(PrintRate, b), DoEfeed("-", b)];
      block := block + (if i != |p.advanceLines| - 1 then MoveTo(startX, startY + lineOffset + p.lineSpacing, b) else []);
      assert block == ValueBlock(i, startX, startY, b, p);
      gcode := gcode + block;
      lineOffset := lineOffset + p.lineSpacing;
      i := i + 1;
    }
    gcode := gcode + [Acceleration(PrintRate, b)];
  }

  /** Every block but the last has twelve commands, the last nine. */
  lemma {:induction false} StdBlocksLength(startX: real, startY: real, b: BasicSettings, p: PatternSettings, n: nat)
    requires n <= |p.advanceLines|
    ensures n < |p.advanceLines| ==> |StdBlocks(startX, startY, b, p, n)| == 12 * n
    ensures 0 < n == |p.advanceLines| ==> |StdBlocks(startX, startY, b, p, n)| == 12 * n - 3
  {
    if n > 0 {
      StdBlocksLength(startX, startY, b, p, n - 1);
    }
  }

  /** Later blocks only append. */
  lemma {:induction false} StdBlocksPrefix(startX: real, startY: real, b: BasicSettings, p: PatternSettings, m: nat, n: nat)
    requires m <= n <= |p.advanceLines|
    ensures StdBlocks(startX, startY, b, p, m) <= StdBlocks(startX, startY, b, p, n)
  {
    if m < n {
      StdBlocksPrefix(startX, startY, b, p, m, n - 1);
    }
  }

  /** A sequence that starts with `x + block` holds `block` right after
      `x`. */
  lemma SliceAfterPrefix<T>(g: seq<T>, x: seq<T>, block: seq<T>)
    requires x + block <= g
    ensures g[|x|..|x| + |block|] == block
  {
    assert g[|x|..|x| + |block|] == (x + block)[|x|..];
  }

  /** The blocks before block `i` take `12 i` commands, and block `i`
      follows them. */
  lemma BlocksBefore(startX: real, startY: real, b: BasicSettings, p: PatternSettings, i: nat)
    requires i < |p.advanceLines|
    ensures var x := StdBlocks(startX, startY, b, p, i);
      |x| == 12 * i && x + ValueBlock(i, startX, startY, b, p) <= StdBlocks(startX, startY, b, p, |p.advanceLines|)
  {
    StdBlocksLength(startX, startY, b, p, i);
    StdBlocksPrefix(startX, startY, b, p, i + 1, |p.advanceLines|);
  }

  /** A part of a slice is a slice. */
  lemma SubSlice<T>(g: seq<T>, k: nat, block: seq<T>, a: nat, c: nat)
    requires k + |block| <= |g| && g[k..k + |block|] == block && a <= c <= |block|
    ensures g[k + a..k + c] == block[a..c]
  {
    forall j | 0 <= j < c - a
      ensures g[k + a..k + c][j] == block[a..c][j]
    {
      assert g[k..k + |block|][a + j] == block[a + j];
    }
  }

  /** Block `i` sits at command `12 i` of the pattern. */
  lemma BlockInPattern(startX: real, startY: real, b: BasicSettings, p: PatternSettings, i: nat)
    requires i < |p.advanceLines|
    ensures var g := StdPattern(startX, startY, b, p);
      var block := ValueBlock(i, startX, startY, b, p);
      12 * i + |block| < |g| && g[12 * i..12 * i + |block|] == block
  {
    BlocksBefore(startX, startY, b, p, i);
    SliceAfterPrefix(StdPattern(startX, startY, b, p), StdBlocks(startX, startY, b, p, i), ValueBlock(i, startX, startY, b, p));
  }

  /** The commands of block `i` in order. */
  lemma BlockLayout(startX: real, startY: real, b: BasicSettings, p: PatternSettings, i: nat)
    requires i < |p.advanceLines|
    ensures var block := ValueBlock(i, startX, startY, b, p);
      var v := RoundAway3(p.advanceLines[i]);
      var y := startY + Offset(i, p.lineSpacing);
      && |block| == (if i + 1 < |p.advanceLines| then 12 else 9)
      && block[..4] == [SetAdvance(p.advanceGCodePrefix, Some(v), SetAdvanceNote), Display(Some(v)), Unretract(b),
                        Acceleration(TestRate, b)]
      && block[4..7] == TestLine(startX, y, b, p)
      && block[7..9] == [Acceleration(PrintRate, b), Retract(b)]
      && (i + 1 < |p.advanceLines| ==> block[9..12] == MoveTo(startX, startY + Offset(i + 1, p.lineSpacing), b))
  {
  }

  /** Where test value `i` lands in the pattern: from command `12 i` on,
      the value is set and shown, the line is printed at
      `startY + Offset(i)`, that is `startY + i * lineSpacing`
      (`OffsetIsProduct`), between test and print accelerations, and the
      filament is retracted. */
  lemma PatternLayout(startX: real, startY: real, b: BasicSettings, p: PatternSettings, i: nat)
    requires i < |p.advanceLines|
    ensures var g := StdPattern(startX, startY, b, p);
      var v := RoundAway3(p.advanceLines[i]);
      var k := 12 * i;
      && k + 9 < |g|
      && g[k..k + 4] == [SetAdvance(p.advanceGCodePrefix, Some(v), SetAdvanceNote), Display(Some(v)), Unretract(b),
                         Acceleration(TestRate, b)]
      && g[k + 4..k + 7] == TestLine(startX, startY + Offset(i, p.lineSpacing), b, p)
      && g[k + 7..k + 9] == [Acceleration(PrintRate, b), Retract(b)]
  {
    BlockInPattern(startX, startY, b, p, i);
    BlockLayout(startX, startY, b, p, i);
    var g := StdPattern(startX, startY, b, p);
    var block := ValueBlock(i, startX, startY, b, p);
    var k := 12 * i;
    SubSlice(g, k, block, 0, 4);
    SubSlice(g, k, block, 4, 7);
    SubSlice(g, k, block, 7, 9);
  }

  /** After every value but the last the head travels to the start of
      the next test line. */
  lemma PatternMovesToNextLine(startX: real, startY: real, b: BasicSettings, p: PatternSettings, i: nat)
    requires i + 1 < |p.advanceLines|
    ensures var g := StdPattern(startX, startY, b, p);
      12 * i + 12 <= |g| && g[12 * i + 9..12 * i + 12] == MoveTo(startX, startY + Offset(i + 1, p.lineSpacing), b)
  {
    BlockInPattern(startX, startY, b, p, i);
    BlockLayout(startX, startY, b, p, i);
    var block := ValueBlock(i, startX, startY, b, p);
    SubSlice(StdPattern(startX, startY, b, p), 12 * i, block, 9, 12);
  }

  /** The pattern closes with one print acceleration after the last
      value, and holds twelve commands per value but the last, nine for
      the last. */
  lemma PatternEnd(startX: real, startY: real, b: BasicSettings, p: PatternSettings)
    ensures var g := StdPattern(startX, startY, b, p);
      && |g| == (if |p.advanceLines| == 0 then 1 else 12 * |p.advanceLines| - 2)
      && g[|g| - 1] == Acceleration(PrintRate, b)
  {
    StdBlocksLength(startX, startY, b, p, |p.advanceLines|);
  }

  // ---------------------------------------------------------------------
  // The test-value labels

  /** One pen stroke of a glyph. */
  datatype Stroke = Up | Down | Right | Left | MoveUp | Dot

  /** The characters `createGlyphs` can draw. */
  predicate IsGlyphChar(c: char) {
    '0' <= c <= '9' || c == '.'
  }

  /** The glyph table: the strokes of each digit and of the decimal point. */
  const Glyphs: map<char, seq<Stroke>> := map[
    '1' := [Up, Up],
    '2' := [MoveUp, MoveUp, Right, Down, Left, Down, Right],
    '3' := [MoveUp, MoveUp, Right, Down, Down, Left, MoveUp, Right],
    '4' := [MoveUp, MoveUp, Down, Right, MoveUp, Down, Down],
    '5' := [Right, Up, Left, Up, Right],
    '6' := [MoveUp, Right, Down, Left, Up, Up, Right],
    '7' := [MoveUp, MoveUp, Right, Down, Down],
    '8' := [MoveUp, Right, Down, Left, Up, Up, Right, Down],
    '9' := [Right, Up, Left, Up, Right, Down],
    '0' := [Right, Up, Up, Left, Down, Down],
    '.' := [Dot]]

  /** The strokes of `c`, if it has a glyph. */
  function GlyphSegments(c: char): (r: Option<seq<Stroke>>)
    ensures r.Some? <==> IsGlyphChar(c)
    ensures r.Some? ==> |r.value| > 0
  {
    assert Glyphs.Keys == {'0', '1', '2', '3', '4', '5', '6', '7', '8', '9', '.'};
    if c in Glyphs then Some(Glyphs[c]) else None
  }

  /** `glyphSegHeight`, `glyphSegHeight2`, `glyphSpacing`. */
  const SegHeight: real := 2.0
  const DotHeight: real := 0.4
  const GlyphSpacing: real := 3.0

  /** How far the pen moves right after drawing `c`. */
  function Advance(c: char): (d: real)
    ensures d == 1.0 || d == GlyphSpacing
    ensures d == 1.0 <==> c == '1' || c == '.'
  {
    if c == '1' || c == '.' then 1.0 else GlyphSpacing
  }

  /** Where the pen goes while a label is drawn: a printed segment to
      `(x, y)` of the given length, a travel to `(x, y)` inside a glyph,
      or the repositioning between two characters, which retracts,
      travels to `(x, y)` and un-retracts. */
  datatype PenStep =
    | Draw(x: real, y: real, length: real, note: string)
    | Jump(x: real, y: real)
    | Reposition(x: real, y: real)

  /** One stroke of the glyph of `c` whose origin is `(sx, sy)`, drawn
      from the counters' position `(x, y)`: `mup` travels one segment up,
      `dot` prints a short segment above the origin wherever the counters
      are, and every other stroke prints one segment commented with the
      character. */
  function StrokeStep(c: char, stroke: Stroke, sx: real, sy: real, x: real, y: real): (p: PenStep)
    ensures p.Jump? <==> stroke == MoveUp
    ensures !p.Reposition?
    ensures stroke == Dot ==> p == Draw(sx, sy + DotHeight, DotHeight, " ; dot\n")
    ensures p.Draw? && stroke != Dot ==> p.length == SegHeight && p.note == " ; " + [c] + "\n"
  {
    var note := " ; " + [c] + "\n";
    match stroke
    case Up => Draw(x, y + 2.0, 2.0, note)
    case Down => Draw(x, y - 2.0, 2.0, note)
    case Right => Draw(x + 2.0, y, 2.0, note)
    case Left => Draw(x - 2.0, y, 2.0, note)
    case MoveUp => Jump(x, y + 2.0)
    case Dot => Draw(sx, sy + 0.4, 0.4, " ; dot\n")
  }

  /** How a stroke moves the glyph's x and y counters. */
  function CounterStep(stroke: Stroke): (d: (int, int))
    ensures -1 <= d.0 <= 1 && -1 <= d.1 <= 1
    ensures stroke == Dot ==> d == (0, 0)
  {
    match stroke
    case Up => (0, 1)
    case Down => (0, -1)
    case Right => (1, 0)
    case Left => (-1, 0)
    case MoveUp => (0, 1)
    case Dot => (0, 0)
  }

  /** The pen position of the counters `(xc, yc)` in the glyph whose
      origin is `(sx, sy)`. */
  function CounterX(sx: real, xc: int): real {
    sx + xc as real * 2.0
  }

  function CounterY(sy: real, yc: int): real {
    sy + yc as real * 2.0
  }

  /** Every stroke but the dot ends exactly where the counters point
      after it: the counters track the pen. */
  lemma StrokeEndsAtNextCounter(c: char, stroke: Stroke, sx: real, sy: real, xc: int, yc: int)
    requires stroke != Dot
    ensures var p := StrokeStep(c, stroke, sx, sy, CounterX(sx, xc), CounterY(sy, yc));
      var d := CounterStep(stroke);
      p.x == CounterX(sx, xc + d.0) && p.y == CounterY(sy, yc + d.1)
  {
  }

  /** The pen steps of `strokes` drawn from the counters `(xc, yc)` of the
      glyph of `c` whose origin is `(sx, sy)`: one step per stroke. */
  function StrokePath(c: char, strokes: seq<Stroke>, sx: real, sy: real, xc: int, yc: int): (r: seq<PenStep>)
    ensures |r| == |strokes|
    decreases |strokes|
  {
    if |strokes| == 0 then []
    else
      var d := CounterStep(strokes[0]);
      [StrokeStep(c, strokes[0], sx, sy, CounterX(sx, xc), CounterY(sy, yc))]
        + StrokePath(c, strokes[1..], sx, sy, xc + d.0, yc + d.1)
  }

  /** A glyph never repositions: its steps are its strokes, in order. */
  lemma {:induction false} StrokePathSteps(c: char, strokes: seq<Stroke>, sx: real, sy: real, xc: int, yc: int)
    ensures var r := StrokePath(c, strokes, sx, sy, xc, yc);
      forall k :: 0 <= k < |r| ==> !r[k].Reposition? && (r[k].Jump? <==> strokes[k] == MoveUp)
    decreases |strokes|
  {
    if |strokes| > 0 {
      var d := CounterStep(strokes[0]);
      StrokePathSteps(c, strokes[1..], sx, sy, xc + d.0, yc + d.1);
    }
  }

  /** One stroke off the front of the strokes from `k` on. */
  lemma StrokePathCons(c: char, strokes: seq<Stroke>, k: nat, sx: real, sy: real, xc: int, yc: int)
    requires k < |strokes|
    ensures var d := CounterStep(strokes[k]);
      StrokePath(c, strokes[k..], sx, sy, xc, yc)
        == [StrokeStep(c, strokes[k], sx, sy, CounterX(sx, xc), CounterY(sy, yc))]
           + StrokePath(c, strokes[k + 1..], sx, sy, xc + d.0, yc + d.1)
  {
    assert strokes[k..][0] == strokes[k];
    assert strokes[k..][1..] == strokes[k + 1..];
  }

  /** The loop invariant of `DrawGlyph` survives one stroke. */
  lemma DrawStepKeepsPath(c: char, strokes: seq<Stroke>, k: nat, sx: real, sy: real, xc: int, yc: int, out: seq<PenStep>)
    requires k < |strokes|
    requires StrokePath(c, strokes, sx, sy, 0, 0) == out + StrokePath(c, strokes[k..], sx, sy, xc, yc)
    ensures var d := CounterStep(strokes[k]);
      StrokePath(c, strokes, sx, sy, 0, 0)
        == (out + [StrokeStep(c, strokes[k], sx, sy, CounterX(sx, xc), CounterY(sy, yc))])
           + StrokePath(c, strokes[k + 1..], sx, sy, xc + d.0, yc + d.1)
  {
    var d := CounterStep(strokes[k]);
    var drawn := StrokeStep(c, strokes[k], sx, sy, CounterX(sx, xc), CounterY(sy, yc));
    var tail := StrokePath(c, strokes[k + 1..], sx, sy, xc + d.0, yc + d.1);
    StrokePathCons(c, strokes, k, sx, sy, xc, yc);
    AppendAssoc(out, [drawn], tail);
  }

  lemma AppendAssoc<T>(a: seq<T>, b: seq<T>, c: seq<T>)
    ensures a + (b + c) == (a + b) + c
  {
  }

  lemma ConsOfAppend<T>(t: seq<T>, u: seq<T>)
    requires |t| > 0
    ensures (t + u)[0] == t[0] && (t + u)[1..] == t[1..] + u
  {
  }

  /** The inner loop of `createGlyphs`: one glyph, its counters starting
      at zero. */
  method DrawGlyph(c: char, strokes: seq<Stroke>, sx: real, sy: real) returns (out: seq<PenStep>)
    ensures out == StrokePath(c, strokes, sx, sy, 0, 0)
  {
    var xCount, yCount := 0, 0;
    out := [];
    var k := 0;
    while k < |strokes|
      invariant 0 <= k <= |strokes|
      invariant StrokePath(c, strokes, sx, sy, 0, 0) == out + StrokePath(c, strokes[k..], sx, sy, xCount, yCount)
    {
      var step := CounterStep(strokes[k]);
      var drawn := StrokeStep(c, strokes[k], sx, sy, CounterX(sx, xCount), CounterY(sy, yCount));
      DrawStepKeepsPath(c, strokes, k, sx, sy, xCount, yCount, out);
      out := out + [drawn];
      xCount, yCount := xCount + step.0, yCount + step.1;
      k := k + 1;
    }
  }

  /** Every character of `s` has a glyph. */
  predicate AllGlyphs(s: string) {
    forall i :: 0 <= i < |s| ==> IsGlyphChar(s[i])
  }

  /** Success with `prefix` in front, or the same failure. */
  function Prepend<T>(prefix: seq<T>, r: Result<seq<T>, PatternError>): Result<seq<T>, PatternError> {
    if r.Success? then Success(prefix + r.value) else r
  }

  /** The pen steps of the text `s` with the pen at `penX`: each
      character's strokes from fresh counters, then the pen advances, and
      between two characters a repositioning to the new pen position. A
      character without a glyph throws. */
  function GlyphPath(s: string, penX: real, sy: real): (r: Result<seq<PenStep>, PatternError>)
    ensures r.Failure? ==> r.error == UnknownGlyph
    decreases |s|
  {
    if |s| == 0 then Success([])
    else
      match GlyphSegments(s[0])
      case None => Failure(UnknownGlyph)
      case Some(strokes) =>
        var here := StrokePath(s[0], strokes, penX, sy, 0, 0);
        var next := penX + Advance(s[0]);
        if |s| == 1 then Success(here)
        else
          Prepend(here + [Reposition(next, sy)], GlyphPath(s[1..], next, sy))
  }

  /** The path exists exactly when every character has a glyph. */
  lemma {:induction false} GlyphPathSucceeds(s: string, penX: real, sy: real)
    ensures GlyphPath(s, penX, sy).Success? <==> AllGlyphs(s)
    decreases |s|
  {
    if |s| > 1 && IsGlyphChar(s[0]) {
      GlyphPathSucceeds(s[1..], penX + Advance(s[0]), sy);
      assert forall i :: 1 <= i < |s| ==> s[i] == s[1..][i - 1];
    }
  }

  /** The commands of one pen step. */
  function EmitStep(p: PenStep, b: BasicSettings): (r: seq<Command>)
    ensures |r| == (match p case Draw(_, _, _, _) => 1 case Jump(_, _) => 3 case Reposition(_, _) => 5)
  {
    match p
    case Draw(x, y, length, note) => [CreateLine(x, y, length, b.printSpeed, b.extMult, note)]
    case Jump(x, y) => MoveTo(x, y, b)
    case Reposition(x, y) => [Retract(b)] + MoveTo(x, y, b) + [Unretract(b)]
  }

  /** The commands of a sequence of pen steps, step after step. */
  function Emit(ps: seq<PenStep>, b: BasicSettings): (r: seq<Command>)
    ensures |ps| > 0 ==> |r| > 0
  {
    if |ps| == 0 then [] else EmitStep(ps[0], b) + Emit(ps[1..], b)
  }

  /** Emitting distributes over concatenation of pen steps. */
  lemma {:induction false} EmitConcat(a: seq<PenStep>, c: seq<PenStep>, b: BasicSettings)
    ensures Emit(a + c, b) == Emit(a, b) + Emit(c, b)
  {
    if |a| == 0 {
      assert a + c == c;
    } else {
      assert (a + c)[0] == a[0];
      assert (a + c)[1..] == a[1..] + c;
      EmitConcat(a[1..], c, b);
    }
  }

  /** `createGlyphs` for the text `s` with the pen at `penX`. */
  function GlyphsOf(s: string, penX: real, sy: real, b: BasicSettings): (r: Result<seq<Command>, PatternError>)
    ensures r.Failure? <==> !AllGlyphs(s)
    ensures r.Failure? ==> r.error == UnknownGlyph
    ensures r.Success? && |s| > 0 ==> |r.value| > 0
  {
    GlyphPathSucceeds(s, penX, sy);
    match GlyphPath(s, penX, sy)
    case Success(path) =>
      assert |path| > 0 || |s| == 0 by {
        if |s| > 0 {
          assert |GlyphSegments(s[0]).value| > 0;
        }
      }
      Success(Emit(path, b))
    case Failure(e) => Failure(e)
  }

  /** `createGlyphs`: the outer loop over the characters of the value's
      text, building the pen path before writing it out. */
  method CreateGlyphs(startX: real, startY: real, b: BasicSettings, s: string) returns (r: Result<seq<Command>, PatternError>)
    ensures r == GlyphsOf(s, startX, startY, b)
  {
    var penX := startX;
    var out: seq<PenStep> := [];
    var i := 0;
    assert s[0..] == s;
    assert Prepend(out, GlyphPath(s, startX, startY)) == GlyphPath(s, startX, startY) by {
      if GlyphPath(s, startX, startY).Success? {
        assert out + GlyphPath(s, startX, startY).value == GlyphPath(s, startX, startY).value;
      }
    }
    while i < |s|
      invariant 0 <= i <= |s|
      invariant GlyphPath(s, startX, startY) == Prepend(out, GlyphPath(s[i..], penX, startY))
    {
      var glyph := GlyphSegments(s[i]);
      if glyph.None? {
        return Failure(UnknownGlyph);
      }
      var drawn := DrawGlyph(s[i], glyph.value, penX, startY);
      GlyphLoopStep(s, i, startX, startY, out, penX);
      penX := penX + (if s[i] == '1' || s[i] == '.' then 1.0 else GlyphSpacing);
      if i != |s| - 1 {
        out := out + (drawn + [Reposition(penX, startY)]);
      } else {
        out := out + drawn;
      }
      i := i + 1;
    }
    assert s[|s|..] == [];
    assert out + [] == out;
    GlyphsOfPath(s, startX, startY, b);
    return Success(Emit(out, b));
  }

  /** The invariant of `CreateGlyphs` survives one character: its
      strokes, and a repositioning unless it is the last. */
  lemma GlyphLoopStep(s: string, i: nat, startX: real, sy: real, out: seq<PenStep>, penX: real)
    requires i < |s| && GlyphSegments(s[i]).Some?
    requires GlyphPath(s, startX, sy) == Prepend(out, GlyphPath(s[i..], penX, sy))
    ensures var drawn := StrokePath(s[i], GlyphSegments(s[i]).value, penX, sy, 0, 0);
      var next := penX + Advance(s[i]);
      var out' := if i != |s| - 1 then out + (drawn + [Reposition(next, sy)]) else out + drawn;
      GlyphPath(s, startX, sy) == Prepend(out', GlyphPath(s[i + 1..], next, sy))
  {
    var drawn := StrokePath(s[i], GlyphSegments(s[i]).value, penX, sy, 0, 0);
    var next := penX + Advance(s[i]);
    var rest := GlyphPath(s[i + 1..], next, sy);
    if i != |s| - 1 {
      assert GlyphPath(s[i..], penX, sy) == Prepend(drawn + [Reposition(next, sy)], rest) by {
        assert s[i..][0] == s[i] && s[i..][1..] == s[i + 1..];
        GlyphPathCons(s[i..], penX, sy);
      }
      PrependTwice(out, drawn + [Reposition(next, sy)], rest);
    } else {
      assert s[i + 1..] == [];
      assert GlyphPath(s[i..], penX, sy) == Success(drawn) by {
        assert s[i..] == [s[i]];
      }
      PrependTwice(out, drawn, rest);
      assert drawn + [] == drawn;
    }
  }

  /** How many commands of `cs` retract. */
  function CountRetracts(cs: seq<Command>): nat {
    if |cs| == 0 then 0 else (if cs[0].Efeed? && cs[0].retract then 1 else 0) + CountRetracts(cs[1..])
  }

  lemma {:induction false} CountRetractsConcat(a: seq<Command>, c: seq<Command>)
    ensures CountRetracts(a + c) == CountRetracts(a) + CountRetracts(c)
  {
    if |a| == 0 {
      assert a + c == c;
    } else {
      assert (a + c)[0] == a[0];
      assert (a + c)[1..] == a[1..] + c;
      CountRetractsConcat(a[1..], c);
    }
  }

  lemma {:induction false} CountRetractsNone(a: seq<Command>)
    requires forall k :: 0 <= k < |a| ==> !(a[k].Efeed? && a[k].retract)
    ensures CountRetracts(a) == 0
  {
    if |a| > 0 {
      CountRetractsNone(a[1..]);
    }
  }

  /** How many steps of `ps` reposition. */
  function CountRepositions(ps: seq<PenStep>): nat {
    if |ps| == 0 then 0 else (if ps[0].Reposition? then 1 else 0) + CountRepositions(ps[1..])
  }

  lemma {:induction false} CountRepositionsConcat(a: seq<PenStep>, c: seq<PenStep>)
    ensures CountRepositions(a + c) == CountRepositions(a) + CountRepositions(c)
  {
    if |a| == 0 {
      assert a + c == c;
    } else {
      assert (a + c)[0] == a[0];
      assert (a + c)[1..] == a[1..] + c;
      CountRepositionsConcat(a[1..], c);
    }
  }

  lemma {:induction false} CountRepositionsNone(a: seq<PenStep>)
    requires forall k :: 0 <= k < |a| ==> !a[k].Reposition?
    ensures CountRepositions(a) == 0
  {
    if |a| > 0 {
      CountRepositionsNone(a[1..]);
    }
  }

  /** A pen step retracts once if it repositions and never otherwise. */
  lemma StepRetracts(p: PenStep, b: BasicSettings)
    ensures CountRetracts(EmitStep(p, b)) == if p.Reposition? then 1 else 0
  {
    match p
    case Draw(_, _, _, _) =>
    case Jump(x, y) =>
      CountRetractsNone(MoveTo(x, y, b));
    case Reposition(x, y) =>
      var m := MoveTo(x, y, b) + [Unretract(b)];
      assert EmitStep(p, b) == [Retract(b)] + m;
      CountRetractsNone(m);
      assert ([Retract(b)] + m)[1..] == m;
  }

  /** The commands of a pen path retract exactly once per repositioning. */
  lemma {:induction false} EmitRetracts(ps: seq<PenStep>, b: BasicSettings)
    ensures CountRetracts(Emit(ps, b)) == CountRepositions(ps)
  {
    if |ps| > 0 {
      StepRetracts(ps[0], b);
      CountRetractsConcat(EmitStep(ps[0], b), Emit(ps[1..], b));
      EmitRetracts(ps[1..], b);
    }
  }

  /** A text of `n` characters repositions `n - 1` times: once between
      each two characters and never after the last. */
  lemma {:induction false} GlyphPathRepositions(s: string, penX: real, sy: real)
    requires GlyphPath(s, penX, sy).Success? && |s| > 0
    ensures CountRepositions(GlyphPath(s, penX, sy).value) == |s| - 1
    decreases |s|
  {
    var strokes := GlyphSegments(s[0]).value;
    var here := StrokePath(s[0], strokes, penX, sy, 0, 0);
    StrokePathSteps(s[0], strokes, penX, sy, 0, 0);
    CountRepositionsNone(here);
    if |s| > 1 {
      var next := penX + Advance(s[0]);
      GlyphPathRepositions(s[1..], next, sy);
      var rest := GlyphPath(s[1..], next, sy).value;
      CountRepositionsConcat(here, [Reposition(next, sy)]);
      CountRepositionsConcat(here + [Reposition(next, sy)], rest);
    }
  }

  /** A label of `n` characters retracts exactly `n - 1` times. */
  lemma GlyphRetracts(s: string, penX: real, sy: real, b: BasicSettings)
    requires AllGlyphs(s) && |s| > 0
    ensures CountRetracts(GlyphsOf(s, penX, sy, b).value) == |s| - 1
  {
    GlyphPathSucceeds(s, penX, sy);
    GlyphPathRepositions(s, penX, sy);
    EmitRetracts(GlyphPath(s, penX, sy).value, b);
  }

  /** No command of `cs` lifts the nozzle. */
  predicate NeverLifts(cs: seq<Command>) {
    forall k :: 0 <= k < |cs| ==> !cs[k].Lift?
  }

  /** Drawing never lifts the nozzle: the z hops around a label are the
      only lifts it gets. */
  lemma {:induction false} EmitNeverLifts(ps: seq<PenStep>, b: BasicSettings)
    ensures NeverLifts(Emit(ps, b))
  {
    if |ps| > 0 {
      EmitNeverLifts(ps[1..], b);
      var first := EmitStep(ps[0], b);
      assert NeverLifts(first);
      var all := first + Emit(ps[1..], b);
      assert forall k :: |first| <= k < |all| ==> all[k] == Emit(ps[1..], b)[k - |first|];
    }
  }

  /** The pen position after `t`: every character moves it by its
      advance. */
  function PenOffset(t: string): real {
    if |t| == 0 then 0.0 else Advance(t[0]) + PenOffset(t[1..])
  }

  /** Drawing `t + u` draws `t`, repositions to where `t` left the pen,
      and draws `u` from there with fresh counters: a character's strokes
      depend only on the pen position, never on earlier characters. */
  lemma {:induction false} GlyphPathConcat(t: string, u: string, penX: real, next: real, sy: real)
    requires GlyphPath(t, penX, sy).Success? && |t| > 0 && |u| > 0
    requires next == penX + PenOffset(t)
    ensures GlyphPath(t + u, penX, sy) == Prepend(GlyphPath(t, penX, sy).value + [Reposition(next, sy)], GlyphPath(u, next, sy))
    decreases |t|
  {
    var n1 := penX + Advance(t[0]);
    assert next == n1 + PenOffset(t[1..]);
    if |t| == 1 {
      GlyphPathConcatSingle(t, u, penX, next, sy);
    } else {
      assert GlyphPath(t[1..], n1, sy).Success? by {
        GlyphPathCons(t, penX, sy);
      }
      GlyphPathConcat(t[1..], u, n1, next, sy);
      GlyphPathConcatStep(t, u, penX, next, sy);
    }
  }

  /** `GlyphPathConcat` for one character. */
  lemma GlyphPathConcatSingle(t: string, u: string, penX: real, next: real, sy: real)
    requires GlyphPath(t, penX, sy).Success? && |t| == 1 && |u| > 0
    requires next == penX + Advance(t[0])
    ensures GlyphPath(t + u, penX, sy) == Prepend(GlyphPath(t, penX, sy).value + [Reposition(next, sy)], GlyphPath(u, next, sy))
  {
    assert (t + u)[0] == t[0] && (t + u)[1..] == u;
    GlyphPathCons(t + u, penX, sy);
  }

  /** The step of `GlyphPathConcat`: the first glyph of `t` comes first,
      then the rest of `t`, which satisfies the property. */
  lemma GlyphPathConcatStep(t: string, u: string, penX: real, next: real, sy: real)
    requires GlyphPath(t, penX, sy).Success? && |t| > 1 && |u| > 0
    requires GlyphPath(t[1..], penX + Advance(t[0]), sy).Success?
    requires var n1 := penX + Advance(t[0]);
      GlyphPath(t[1..] + u, n1, sy)
        == Prepend(GlyphPath(t[1..], n1, sy).value + [Reposition(next, sy)], GlyphPath(u, next, sy))
    ensures GlyphPath(t + u, penX, sy) == Prepend(GlyphPath(t, penX, sy).value + [Reposition(next, sy)], GlyphPath(u, next, sy))
  {
    var here := StrokePath(t[0], GlyphSegments(t[0]).value, penX, sy, 0, 0);
    var n1 := penX + Advance(t[0]);
    var front, mid := here + [Reposition(n1, sy)], GlyphPath(t[1..], n1, sy).value;
    assert GlyphPath(t + u, penX, sy) == Prepend(front, GlyphPath(t[1..] + u, n1, sy)) by {
      ConsOfAppend(t, u);
      GlyphPathCons(t + u, penX, sy);
    }
    assert GlyphPath(t, penX, sy).value == front + mid by {
      GlyphPathCons(t, penX, sy);
    }
    PrependAppend(front, mid, Reposition(next, sy), GlyphPath(u, next, sy));
  }

  /** Prepending twice is prepending the concatenation. */
  lemma PrependAppend<T>(front: seq<T>, mid: seq<T>, x: T, tail: Result<seq<T>, PatternError>)
    ensures Prepend(front, Prepend(mid + [x], tail)) == Prepend((front + mid) + [x], tail)
  {
    PrependTwice(front, mid + [x], tail);
    AppendAssoc(front, mid, [x]);
  }

  /** The path of a text of two or more characters: the first glyph, a
      repositioning, then the rest of the text. */
  lemma GlyphPathCons(s: string, penX: real, sy: real)
    requires |s| > 1 && GlyphSegments(s[0]).Some?
    ensures var next := penX + Advance(s[0]);
      GlyphPath(s, penX, sy)
        == Prepend(StrokePath(s[0], GlyphSegments(s[0]).value, penX, sy, 0, 0) + [Reposition(next, sy)], GlyphPath(s[1..], next, sy))
  {
  }

  lemma PrependTwice<T>(a: seq<T>, c: seq<T>, r: Result<seq<T>, PatternError>)
    ensures Prepend(a, Prepend(c, r)) == Prepend(a + c, r)
  {
    if r.Success? {
      assert a + (c + r.value) == a + c + r.value;
    }
  }

  /** A repositioning inside a path is written as retract, travel,
      un-retract between the commands around it. */
  lemma EmitAroundReposition(pt: seq<PenStep>, pv: seq<PenStep>, x: real, y: real, b: BasicSettings)
    ensures Emit(pt + [Reposition(x, y)] + pv, b)
      == Emit(pt, b) + [Retract(b)] + MoveTo(x, y, b) + [Unretract(b)] + Emit(pv, b)
  {
    var rep := [Reposition(x, y)];
    var sep := [Retract(b)] + MoveTo(x, y, b) + [Unretract(b)];
    assert Emit(rep, b) == sep by {
      assert rep[1..] == [];
    }
    EmitConcat(pt, rep, b);
    EmitConcat(pt + rep, pv, b);
    RegroupMiddle(Emit(pt, b), [Retract(b)], MoveTo(x, y, b), [Unretract(b)], Emit(pv, b));
  }

  lemma RegroupMiddle<T>(a: seq<T>, p: seq<T>, q: seq<T>, r: seq<T>, c: seq<T>)
    ensures a + (p + q + r) + c == a + p + q + r + c
  {
  }

  /** `GlyphsOf` writes out the pen path, or fails with it. */
  lemma GlyphsOfPath(s: string, penX: real, sy: real, b: BasicSettings)
    ensures var p := GlyphPath(s, penX, sy);
      GlyphsOf(s, penX, sy, b) == if p.Success? then Success(Emit(p.value, b)) else Failure(UnknownGlyph)
  {
  }

  // ---------------------------------------------------------------------
  // The labels beside the test lines

  /** The text a label draws: the value rounded up to three places, as
      JavaScript prints it. */
  function LabelText(v: real, nt: NumberText): string {
    nt.show(Num(RoundAway3(v)))
  }

  /** Some value at an even index from `k` on has a label that cannot be
      drawn. */
  predicate SomeLabelUndrawable(values: seq<real>, k: nat, nt: NumberText) {
    exists j :: k <= j < |values| && j % 2 == 0 && !AllGlyphs(LabelText(values[j], nt))
  }

  /** The label loop of `generateTestPattern` from index `k` on: the value
      of every even index is drawn beside its line, with a travel to the
      label's start, a z hop, an un-retract, the glyphs, a retract and a
      second z hop; odd indices print nothing. */
  function LabelsFrom(values: seq<real>, k: nat, numStartX: real, numStartY: real, b: BasicSettings, nt: NumberText)
    : (r: Result<seq<Command>, PatternError>)
    requires k <= |values|
    ensures r.Failure? <==> SomeLabelUndrawable(values, k, nt)
    ensures r.Failure? ==> r.error == UnknownGlyph
    decreases |values| - k
  {
    if k == |values| then Success([])
    else
      var y := numStartY + k as real * 4.0;
      var drawn := if k % 2 == 0 then GlyphsOf(LabelText(values[k], nt), numStartX, y, b) else Success([]);
      var rest := LabelsFrom(values, k + 1, numStartX, numStartY, b, nt);
      if drawn.Failure? || rest.Failure? then
        Failure(UnknownGlyph)
      else if k % 2 == 0 then
        Success(MoveTo(numStartX, y, b) + [ZHop(b), Unretract(b)] + drawn.value + [Retract(b), ZHop(b)] + rest.value)
      else
        Success(rest.value)
  }

  /** Only the even indices matter: values at odd indices can change
      without changing a single label command. */
  lemma {:induction false} LabelsIgnoreOddValues(values: seq<real>, values': seq<real>, k: nat,
                                                 numStartX: real, numStartY: real, b: BasicSettings, nt: NumberText)
    requires k <= |values| == |values'|
    requires forall j :: k <= j < |values| && j % 2 == 0 ==> values[j] == values'[j]
    ensures LabelsFrom(values, k, numStartX, numStartY, b, nt) == LabelsFrom(values', k, numStartX, numStartY, b, nt)
    decreases |values| - k
  {
    if k < |values| {
      LabelsIgnoreOddValues(values, values', k + 1, numStartX, numStartY, b, nt);
    }
  }

  /** How many commands of `cs` lift the nozzle. */
  function CountLifts(cs: seq<Command>): nat {
    if |cs| == 0 then 0 else (if cs[0].Lift? then 1 else 0) + CountLifts(cs[1..])
  }

  lemma {:induction false} CountLiftsConcat(a: seq<Command>, c: seq<Command>)
    ensures CountLifts(a + c) == CountLifts(a) + CountLifts(c)
  {
    if |a| == 0 {
      assert a + c == c;
    } else {
      assert (a + c)[0] == a[0];
      assert (a + c)[1..] == a[1..] + c;
      CountLiftsConcat(a[1..], c);
    }
  }

  lemma {:induction false} CountLiftsNone(a: seq<Command>)
    requires NeverLifts(a)
    ensures CountLifts(a) == 0
  {
    if |a| > 0 {
      CountLiftsNone(a[1..]);
    }
  }

  lemma CountLiftsPair(c: Command, d: Command)
    ensures CountLifts([c, d]) == (if c.Lift? then 1 else 0) + (if d.Lift? then 1 else 0)
  {
    assert [c, d][1..] == [d];
    assert [d][1..] == [];
    assert CountLifts([d]) == (if d.Lift? then 1 else 0) + CountLifts([]);
    assert CountLifts([c, d]) == (if c.Lift? then 1 else 0) + CountLifts([d]);
  }

  /** A drawn label never lifts the nozzle. */
  lemma GlyphsNeverLift(s: string, penX: real, sy: real, b: BasicSettings)
    requires GlyphsOf(s, penX, sy, b).Success?
    ensures CountLifts(GlyphsOf(s, penX, sy, b).value) == 0
  {
    GlyphsOfPath(s, penX, sy, b);
    EmitNeverLifts(GlyphPath(s, penX, sy).value, b);
    CountLiftsNone(GlyphsOf(s, penX, sy, b).value);
  }

  /** The lifts of one label: the z hop before and the one after. */
  lemma LabelLifts(head: seq<Command>, glyphs: seq<Command>, tail: seq<Command>, b: BasicSettings)
    requires NeverLifts(head) && CountLifts(glyphs) == 0
    ensures CountLifts(head + [ZHop(b), Unretract(b)] + glyphs + [Retract(b), ZHop(b)] + tail) == 2 + CountLifts(tail)
  {
    var hop := [ZHop(b), Unretract(b)];
    var out := [Retract(b), ZHop(b)];
    CountLiftsNone(head);
    CountLiftsPair(ZHop(b), Unretract(b));
    CountLiftsPair(Retract(b), ZHop(b));
    CountLiftsConcat(head, hop);
    CountLiftsConcat(head + hop, glyphs);
    CountLiftsConcat(head + hop + glyphs, out);
    CountLiftsConcat(head + hop + glyphs + out, tail);
  }

  /** The number of even indices in `[k, n)`. */
  function EvensBetween(k: nat, n: nat): nat
    requires k <= n
  {
    (n + 1) / 2 - (k + 1) / 2
  }

  lemma EvensBetweenStep(k: nat, n: nat)
    requires k < n
    ensures EvensBetween(k, n) == EvensBetween(k + 1, n) + (if k % 2 == 0 then 1 else 0)
  {
  }

  /** Every label is lifted into and out of exactly once: from index `k`
      on the labels lift the nozzle twice per even index. */
  lemma {:induction false} LabelsLiftTwicePerLabel(values: seq<real>, k: nat, numStartX: real, numStartY: real,
                                                   b: BasicSettings, nt: NumberText)
    requires k <= |values|
    requires LabelsFrom(values, k, numStartX, numStartY, b, nt).Success?
    ensures CountLifts(LabelsFrom(values, k, numStartX, numStartY, b, nt).value) == 2 * EvensBetween(k, |values|)
    decreases |values| - k
  {
    if k < |values| {
      LabelsLiftTwicePerLabel(values, k + 1, numStartX, numStartY, b, nt);
      EvensBetweenStep(k, |values|);
      LabelStepLifts(values, k, numStartX, numStartY, b, nt);
    }
  }

  /** One step of the label loop: an even index adds two lifts, an odd
      one none. */
  lemma LabelStepLifts(values: seq<real>, k: nat, numStartX: real, numStartY: real, b: BasicSettings, nt: NumberText)
    requires k < |values|
    requires LabelsFrom(values, k, numStartX, numStartY, b, nt).Success?
    ensures LabelsFrom(values, k + 1, numStartX, numStartY, b, nt).Success?
    ensures CountLifts(LabelsFrom(values, k, numStartX, numStartY, b, nt).value)
         == (if k % 2 == 0 then 2 else 0) + CountLifts(LabelsFrom(values, k + 1, numStartX, numStartY, b, nt).value)
  {
    if k % 2 == 0 {
      EvenLabelLifts(values, k, numStartX, numStartY, b, nt);
    } else {
      assert LabelsFrom(values, k, numStartX, numStartY, b, nt).value
          == LabelsFrom(values, k + 1, numStartX, numStartY, b, nt).value;
    }
  }

  lemma EvenLabelLifts(values: seq<real>, k: nat, numStartX: real, numStartY: real, b: BasicSettings, nt: NumberText)
    requires k < |values| && k % 2 == 0
    requires LabelsFrom(values, k, numStartX, numStartY, b, nt).Success?
    ensures LabelsFrom(values, k + 1, numStartX, numStartY, b, nt).Success?
    ensures CountLifts(LabelsFrom(values, k, numStartX, numStartY, b, nt).value)
         == 2 + CountLifts(LabelsFrom(values, k + 1, numStartX, numStartY, b, nt).value)
  {
    var y := numStartY + k as real * 4.0;
    var text := LabelText(values[k], nt);
    LabelsFromEven(values, k, numStartX, numStartY, b, nt);
    var here := LabelsFrom(values, k, numStartX, numStartY, b, nt).value;
    var drawn := GlyphsOf(text, numStartX, y, b).value;
    var rest := LabelsFrom(values, k + 1, numStartX, numStartY, b, nt).value;
    var head := MoveTo(numStartX, y, b);
    assert CountLifts(drawn) == 0 by {
      GlyphsNeverLift(text, numStartX, y, b);
    }
    assert NeverLifts(head);
    assert CountLifts(here) == 2 + CountLifts(rest) by {
      LabelLifts(head, drawn, rest, b);
    }
  }

  /** The label loop at an even index: the label's commands, then the
      rest. */
  lemma LabelsFromEven(values: seq<real>, k: nat, numStartX: real, numStartY: real, b: BasicSettings, nt: NumberText)
    requires k < |values| && k % 2 == 0
    requires LabelsFrom(values, k, numStartX, numStartY, b, nt).Success?
    ensures var y := numStartY + k as real * 4.0;
      var drawn := GlyphsOf(LabelText(values[k], nt), numStartX, y, b);
      var rest := LabelsFrom(values, k + 1, numStartX, numStartY, b, nt);
      && drawn.Success? && rest.Success?
      && LabelsFrom(values, k, numStartX, numStartY, b, nt).value
         == MoveTo(numStartX, y, b) + [ZHop(b), Unretract(b)] + drawn.value + [Retract(b), ZHop(b)] + rest.value
  {
  }

  // ---------------------------------------------------------------------
  // The whole pattern

  /** What `generateTestPattern` reads from the configuration, speeds in
      mm/s. `fanDuty` is the `M106` argument, the fan percentage scaled to
      255 and rounded; `extRatio` is the filament a millimetre of line
      needs, line width times layer height over the filament's
      cross-section. Every value is finite: the invalid-number throw of
      big.js for NaN or an infinity is outside this model. */
  datatype PatternInput = PatternInput(
    travelAcceleration: real,
    testAcceleration: real,
    printAcceleration: real,
    lineWidth: real,
    speedSlow: real,
    speedFast: real,
    speedPrint: real,
    speedMove: real,
    speedMoveZ: real,
    zHopHeight: real,
    retractSpeed: real,
    unretractSpeed: real,
    retractDist: real,
    unretractDist: real,
    roundBed: bool,
    bedX: real,
    bedY: real,
    nullCenter: bool,
    heightLayer: real,
    fanDuty: real,
    extRatio: real,
    extMult: real,
    advanceLines: seq<real>,
    printDir: real,
    lengthSlow: real,
    lengthFast: real,
    advanceGCodePrefix: string,
    trig: Trig)

  /** The bed's y size: a round bed is as deep as it is wide. */
  function BedY(inp: PatternInput): real {
    if inp.roundBed then inp.bedX else inp.bedY
  }

  /** `BasicSettings` as the generator fills them in: every speed turned
      from mm/s into mm/min, and the centre at the origin or in the middle
      of the bed. */
  function BasicOf(inp: PatternInput): (b: BasicSettings)
    ensures b.slowSpeed == 60.0 * inp.speedSlow && b.fastSpeed == 60.0 * inp.speedFast
    ensures b.printSpeed == 60.0 * inp.speedPrint && b.travelSpeed == 60.0 * inp.speedMove
    ensures b.travelSpeedZ == 60.0 * inp.speedMoveZ
    ensures b.retractSpeed == 60.0 * inp.retractSpeed && b.unretractSpeed == 60.0 * inp.unretractSpeed
    ensures inp.nullCenter ==> b.centerX == 0.0 && b.centerY == 0.0
    ensures !inp.nullCenter ==> 2.0 * b.centerX == inp.bedX && 2.0 * b.centerY == BedY(inp)
    ensures b.printDir == inp.printDir && b.lineWidth == inp.lineWidth && b.extMult == inp.extMult
  {
    BasicSettings(
      slowSpeed := inp.speedSlow * 60.0,
      fastSpeed := inp.speedFast * 60.0,
      printSpeed := inp.speedPrint * 60.0,
      travelSpeed := inp.speedMove * 60.0,
      travelSpeedZ := inp.speedMoveZ * 60.0,
      printAcceleration := inp.printAcceleration,
      travelAcceleration := inp.travelAcceleration,
      testAcceleration := inp.testAcceleration,
      zHopHeight := inp.zHopHeight,
      centerX := if inp.nullCenter then 0.0 else inp.bedX / 2.0,
      centerY := if inp.nullCenter then 0.0 else BedY(inp) / 2.0,
      printDir := inp.printDir,
      lineWidth := inp.lineWidth,
      extRatio := inp.extRatio,
      extMult := inp.extMult,
      retractDist := inp.retractDist,
      unretractDist := inp.unretractDist,
      retractSpeed := inp.retractSpeed * 60.0,
      unretractSpeed := inp.unretractSpeed * 60.0,
      trig := inp.trig)
  }

  function PatternOf(inp: PatternInput): PatternSettings {
    PatternSettings(inp.advanceGCodePrefix, inp.lengthSlow, inp.lengthFast, inp.advanceLines, LineSpacing)
  }

  /** `PRINT_SIZE_Y`: a line spacing per test value and 25 mm for the
      reference marks. */
  function SizeY(inp: PatternInput): real {
    |inp.advanceLines| as real * LineSpacing + 25.0
  }

  /** `PRINT_SIZE_X`: two slow segments, the fast one and 8 mm. */
  function SizeX(inp: PatternInput): real {
    2.0 * inp.lengthSlow + inp.lengthFast + 8.0
  }

  /** `PAT_START_X`: half the fast segment, the slow one and 4 mm left of
      the centre. */
  function PatStartX(inp: PatternInput): real {
    BasicOf(inp).centerX - 0.5 * inp.lengthFast - inp.lengthSlow - 4.0
  }

  /** `PAT_START_Y`: half the print height below the centre. */
  function PatStartY(inp: PatternInput): real {
    BasicOf(inp).centerY - SizeY(inp) / 2.0
  }

  /** The fan and the move to layer height. */
  function Intro(inp: PatternInput): (r: seq<Command>)
    ensures |r| == 2
  {
    [Preamble(inp.fanDuty), Lift(inp.heightLayer, BasicOf(inp).slowSpeed, " ; Move to layer height\n")]
  }

  /** The anchor frame: two double rails left and right of the test
      lines, printed with ten percent more filament. */
  function Frame(inp: PatternInput): (r: seq<Command>)
    ensures |r| == 22
  {
    var b := BasicOf(inp);
    var x1 := PatStartX(inp);
    var x2 := PatStartX(inp) + 2.0 * inp.lengthSlow + inp.lengthFast;
    var y := PatStartY(inp) - 3.0;
    var len := SizeY(inp) - 19.0;
    var mult := inp.extMult * 1.1;
    [Comment(""), Comment(" print anchor frame"), Comment("")]
    + MoveTo(x1, y, b)
    + [CreateLine(x1, y + len, len, b.printSpeed, mult, PrintNote)]
    + MoveTo(x1 + inp.lineWidth, y + len, b)
    + [CreateLine(x1 + inp.lineWidth, y, -len, b.printSpeed, mult, PrintNote), Retract(b)]
    + MoveTo(x2, y, b)
    + [Unretract(b), CreateLine(x2, y + len, len, b.printSpeed, mult, PrintNote)]
    + MoveTo(x2 - inp.lineWidth, y + len, b)
    + [CreateLine(x2 - inp.lineWidth, y, -len, b.printSpeed, mult, PrintNote), Retract(b)]
  }

  /** The comment and the move to the first test line. */
  function PatternHead(inp: PatternInput): (r: seq<Command>)
    ensures |r| == 6
  {
    [Comment(""), Comment(" start the Test pattern"), Comment("")] + MoveTo(PatStartX(inp), PatStartY(inp), BasicOf(inp))
  }

  const ResetNote := "; Set Pressure Advance to minimum test value\n"

  /** After the test lines the display is cleared and the advance is set
      to the first test value, unrounded; without values it prints
      `undefined`. */
  function Reset(inp: PatternInput): (r: seq<Command>)
    ensures |r| == 3
  {
    var first := if |inp.advanceLines| > 0 then Some(inp.advanceLines[0]) else None;
    [Comment(""), Display(None), SetAdvance(inp.advanceGCodePrefix, first, ResetNote)]
  }

  /** The two 20 mm reference marks above the test lines. */
  function Marks(inp: PatternInput): (r: seq<Command>)
    ensures |r| == 15
  {
    var b := BasicOf(inp);
    var x1 := b.centerX - 0.5 * inp.lengthFast - 4.0;
    var x2 := b.centerX + 0.5 * inp.lengthFast - 4.0;
    var y := b.centerY + SizeY(inp) / 2.0 - 20.0;
    [Comment(""), Comment(" Mark the test area for reference")]
    + MoveTo(x1, y, b) + [Unretract(b), PrintLine(x1, y + 20.0, 20.0, b), Retract(b)]
    + MoveTo(x2, y, b) + [Unretract(b), PrintLine(x2, y + 20.0, 20.0, b), Retract(b), ZHop(b)]
  }

  /** `numStartX`: 2 mm right of the end of the test lines. */
  function NumStartX(inp: PatternInput): real {
    BasicOf(inp).centerX + 0.5 * inp.lengthFast + inp.lengthSlow - 2.0
  }

  /** `numStartY`: 2 mm below the first test line. */
  function NumStartY(inp: PatternInput): real {
    PatStartY(inp) - 2.0
  }

  const LabelHead: seq<Command> := [Comment(""), Comment(" print K-value next to lines"), Comment("")]

  /** Everything in front of the test lines. */
  function Prelude(inp: PatternInput): (r: seq<Command>)
    ensures |r| == 30
  {
    Intro(inp) + Frame(inp) + PatternHead(inp)
  }

  /** Everything after the test lines but the labels. */
  function Postlude(inp: PatternInput): (r: seq<Command>)
    ensures |r| == 21
  {
    Reset(inp) + Marks(inp) + LabelHead
  }

  /** `generateTestPattern`: the commands of the whole pattern after its
      header comment. It throws exactly when a label needs a character
      with no glyph. */
  function Generate(inp: PatternInput, nt: NumberText): (r: Result<seq<Command>, PatternError>)
    ensures r.Failure? <==> SomeLabelUndrawable(inp.advanceLines, 0, nt)
    ensures r.Failure? ==> r.error == UnknownGlyph
  {
    var b := BasicOf(inp);
    match LabelsFrom(inp.advanceLines, 0, NumStartX(inp), NumStartY(inp), b, nt)
    case Failure(e) => Failure(e)
    case Success(labels) =>
      Success(Prelude(inp) + StdPattern(PatStartX(inp), PatStartY(inp), b, PatternOf(inp)) + Postlude(inp) + labels)
  }

  /** Where the parts land in the generated commands: the fan and layer
      move first, the test lines from command 30 on, the reset right after
      them, and the labels last. */
  lemma GenerateLayout(inp: PatternInput, nt: NumberText)
    requires Generate(inp, nt).Success?
    ensures var g := Generate(inp, nt).value;
      var b := BasicOf(inp);
      var pat := StdPattern(PatStartX(inp), PatStartY(inp), b, PatternOf(inp));
      var labels := LabelsFrom(inp.advanceLines, 0, NumStartX(inp), NumStartY(inp), b, nt).value;
      && |g| == 51 + |pat| + |labels|
      && g[0] == Preamble(inp.fanDuty)
      && g[1] == Lift(inp.heightLayer, 60.0 * inp.speedSlow, " ; Move to layer height\n")
      && g[30..30 + |pat|] == pat
      && g[30 + |pat|..33 + |pat|] == Reset(inp)
      && g[51 + |pat|..] == labels
  {
    var g := Generate(inp, nt).value;
    var b := BasicOf(inp);
    var pat := StdPattern(PatStartX(inp), PatStartY(inp), b, PatternOf(inp));
    var labels := LabelsFrom(inp.advanceLines, 0, NumStartX(inp), NumStartY(inp), b, nt).value;
    var pre := Prelude(inp);
    var post := Postlude(inp);
    assert g == pre + pat + post + labels;
    assert g[0] == pre[0] && g[1] == pre[1];
    assert pre[..2] == Intro(inp);
    SliceAfterPrefix(g, pre, pat);
    SliceAfterPrefix(g, pre + pat, post);
    SubSlice(g, 30 + |pat|, post, 0, 3);
    assert post[..3] == Reset(inp);
    assert g[51 + |pat|..] == labels;
  }

  /** The frame's rails stand where the test lines begin and end, from
      3 mm below the first line to 7 mm above the last one. */
  lemma FrameSpansTestLines(inp: PatternInput, i: nat)
    requires i < |inp.advanceLines|
    ensures var f := Frame(inp);
      var y := PatStartY(inp) + Offset(i, LineSpacing);
      var line := TestLine(PatStartX(inp), y, BasicOf(inp), PatternOf(inp));
      && f[4].Travel? && f[6].Extrude? && f[13].Travel?
      && f[4].x == PatStartX(inp) && f[13].x == line[2].x
      && f[4].y + 3.0 <= y && y + 7.0 <= f[6].y
  {
    OffsetIsProduct(i, LineSpacing);
    var f := Frame(inp);
    var b := BasicOf(inp);
    var y0 := PatStartY(inp) - 3.0;
    var len := SizeY(inp) - 19.0;
    assert f[3..6] == MoveTo(PatStartX(inp), y0, b);
    assert f[6] == CreateLine(PatStartX(inp), y0 + len, len, b.printSpeed, inp.extMult * 1.1, PrintNote);
    assert f[12..15] == MoveTo(PatStartX(inp) + 2.0 * inp.lengthSlow + inp.lengthFast, y0, b);
  }

  /** The reference marks stand 20 mm tall where the fast segment of
      every test line starts and ends, above the last test line. */
  lemma MarksAtFastSegment(inp: PatternInput, i: nat)
    requires i < |inp.advanceLines|
    ensures var m := Marks(inp);
      var y := PatStartY(inp) + Offset(i, LineSpacing);
      var line := TestLine(PatStartX(inp), y, BasicOf(inp), PatternOf(inp));
      && m[3].Travel? && m[6].Extrude? && m[9].Travel? && m[12].Extrude?
      && m[3].x == line[0].x && m[9].x == line[1].x
      && m[6].x == m[3].x && m[6].y == m[3].y + 20.0 && m[6].length == 20.0
      && m[12].x == m[9].x && m[12].y == m[9].y + 20.0
      && y < m[3].y && m[3].y == m[9].y
  {
    OffsetIsProduct(i, LineSpacing);
    var m := Marks(inp);
    var b := BasicOf(inp);
    var y0 := b.centerY + SizeY(inp) / 2.0 - 20.0;
    var x1 := b.centerX - 0.5 * inp.lengthFast - 4.0;
    var x2 := b.centerX + 0.5 * inp.lengthFast - 4.0;
    assert m[2..5] == MoveTo(x1, y0, b);
    assert m[6] == PrintLine(x1, y0 + 20.0, 20.0, b);
    assert m[8..11] == MoveTo(x2, y0, b);
    assert m[12] == PrintLine(x2, y0 + 20.0, 20.0, b);
  }

  /** The label of test value `k` starts 2 mm right of the end of its
      line and 2 mm below it. */
  lemma LabelBesideLine(inp: PatternInput, k: nat, nt: NumberText)
    requires k < |inp.advanceLines| && k % 2 == 0
    requires LabelsFrom(inp.advanceLines, k, NumStartX(inp), NumStartY(inp), BasicOf(inp), nt).Success?
    ensures var b := BasicOf(inp);
      var y := PatStartY(inp) + Offset(k, LineSpacing);
      var line := TestLine(PatStartX(inp), y, b, PatternOf(inp));
      var labels := LabelsFrom(inp.advanceLines, k, NumStartX(inp), NumStartY(inp), b, nt).value;
      |labels| > 1 && labels[1] == Travel(line[2].x + 2.0, y - 2.0, b.travelSpeed)
  {
    LabelStartsWithTravel(inp.advanceLines, k, NumStartX(inp), NumStartY(inp), BasicOf(inp), nt);
    LabelCornerY(inp, k);
    LabelCornerX(inp, PatStartY(inp) + Offset(k, LineSpacing));
  }

  /** The labels' left edge is 2 mm right of where every test line ends. */
  lemma LabelCornerX(inp: PatternInput, y: real)
    ensures TestLine(PatStartX(inp), y, BasicOf(inp), PatternOf(inp))[2].x + 2.0 == NumStartX(inp)
  {
    var cx, lf, ls := BasicOf(inp).centerX, inp.lengthFast, inp.lengthSlow;
    assert PatStartX(inp) == cx - 0.5 * lf - ls - 4.0;
    assert NumStartX(inp) == cx + 0.5 * lf + ls - 2.0;
  }

  /** Label `k` sits 2 mm below test line `k`. */
  lemma LabelCornerY(inp: PatternInput, k: nat)
    ensures NumStartY(inp) + k as real * 4.0 == PatStartY(inp) + Offset(k, LineSpacing) - 2.0
  {
    OffsetIsProduct(k, LineSpacing);
  }

  /** The commands for an even-indexed label begin with a travel to the
      label's corner. */
  lemma LabelStartsWithTravel(values: seq<real>, k: nat, numStartX: real, numStartY: real, b: BasicSettings, nt: NumberText)
    requires k < |values| && k % 2 == 0
    requires LabelsFrom(values, k, numStartX, numStartY, b, nt).Success?
    ensures var labels := LabelsFrom(values, k, numStartX, numStartY, b, nt).value;
      |labels| > 1 && labels[1] == Travel(numStartX, numStartY + k as real * 4.0, b.travelSpeed)
  {
    LabelsFromEven(values, k, numStartX, numStartY, b, nt);
    var labels := LabelsFrom(values, k, numStartX, numStartY, b, nt).value;
    assert labels[1] == MoveTo(numStartX, numStartY + k as real * 4.0, b)[1];
  }

  /** Once the test lines are done the advance is set to the first test
      value, which is the smallest when the values ascend, as the range
      model makes them. */
  lemma ResetToSmallestValue(inp: PatternInput)
    requires |inp.advanceLines| > 0
    requires forall i, j :: 0 <= i < j < |inp.advanceLines| ==> inp.advanceLines[i] < inp.advanceLines[j]
    ensures var c := Reset(inp)[2];
      && c.SetAdvance? && c.prefix == inp.advanceGCodePrefix && c.value.Some?
      && c.value.value in inp.advanceLines
      && forall i :: 0 <= i < |inp.advanceLines| ==> c.value.value <= inp.advanceLines[i]
  {
    var lines := inp.advanceLines;
    forall i | 0 <= i < |lines|
      ensures lines[0] <= lines[i]
    {
      if i > 0 {
        assert lines[0] < lines[i];
      }
    }
  }

  // ---------------------------------------------------------------------
  // Does the pattern fit the bed?

  /** The rounded-up width and height of the pattern's bounding box after
      turning it by the print direction. */
  function FitWidth(sizeX: real, sizeY: real, c: real, s: real): (w: real)
    ensures w >= 0.0
  {
    RoundAway0(Abs(sizeX * c) + Abs(sizeY * s))
  }

  function FitHeight(sizeX: real, sizeY: real, c: real, s: real): (h: real)
    ensures h >= 0.0
  {
    RoundAway0(Abs(sizeX * s) + Abs(sizeY * c))
  }

  /** `validateAdvanceParameters`: on a round bed the bounding box's
      diagonal must not exceed the diameter `bedX`; on any other bed each
      side must fit the bed's side. The error carries the rounded box. */
  function Validate(inp: PatternInput): (thrown: Option<PatternError>)
    ensures thrown.Some? ==> (thrown.value.TooBigForRoundBed? <==> inp.roundBed)
    ensures thrown.Some? ==> !thrown.value.UnknownGlyph? && thrown.value.fitWidth >= 0.0 && thrown.value.fitHeight >= 0.0
    ensures thrown.None? && inp.roundBed ==> inp.bedX >= 0.0
  {
    var c := inp.trig.cosDeg(inp.printDir);
    var s := inp.trig.sinDeg(inp.printDir);
    var fw := FitWidth(SizeX(inp), SizeY(inp), c, s);
    var fh := FitHeight(SizeX(inp), SizeY(inp), c, s);
    if inp.roundBed then
      if ExceedsDiameter(fw, fh, inp.bedX) then Some(TooBigForRoundBed(fw, fh)) else None
    else if fw > inp.bedX || fh > inp.bedY then Some(TooBigForBed(fw, fh))
    else None
  }

  /** `Math.sqrt(w² + h²) > d`, without the square root. */
  predicate ExceedsDiameter(w: real, h: real, d: real) {
    d < 0.0 || w * w + h * h > d * d
  }

  /** Unturned, the box is the pattern itself: on a rectangular bed it
      fits exactly when its sides, rounded up to whole millimetres, fit
      the bed's. */
  lemma UnrotatedFit(inp: PatternInput)
    requires inp.trig.cosDeg(inp.printDir) == 1.0 && inp.trig.sinDeg(inp.printDir) == 0.0
    requires !inp.roundBed
    ensures Validate(inp).None? <==> RoundAway0(Abs(SizeX(inp))) <= inp.bedX && RoundAway0(SizeY(inp)) <= inp.bedY
  {
  }

  /** A quarter turn swaps the box's width and height. */
  lemma QuarterTurnSwapsSides(sizeX: real, sizeY: real)
    ensures FitWidth(sizeX, sizeY, 0.0, 1.0) == FitHeight(sizeX, sizeY, 1.0, 0.0)
    ensures FitHeight(sizeX, sizeY, 0.0, 1.0) == FitWidth(sizeX, sizeY, 1.0, 0.0)
  {
    assert sizeX * 0.0 == 0.0 && sizeY * 0.0 == 0.0;
  }

  /** A box that fits a round bed also fits the square the bed's
      diameter spans. */
  lemma RoundFitBoundsSides(inp: PatternInput)
    requires inp.roundBed && Validate(inp).None?
    ensures var c := inp.trig.cosDeg(inp.printDir);
      var s := inp.trig.sinDeg(inp.printDir);
      FitWidth(SizeX(inp), SizeY(inp), c, s) <= inp.bedX && FitHeight(SizeX(inp), SizeY(inp), c, s) <= inp.bedX
  {
    var c := inp.trig.cosDeg(inp.printDir);
    var s := inp.trig.sinDeg(inp.printDir);
    var fw := FitWidth(SizeX(inp), SizeY(inp), c, s);
    var fh := FitHeight(SizeX(inp), SizeY(inp), c, s);
    assert !ExceedsDiameter(fw, fh, inp.bedX);
    DiameterBoundsSides(fw, fh, inp.bedX);
  }

  lemma DiameterBoundsSides(w: real, h: real, d: real)
    requires w >= 0.0 && h >= 0.0 && !ExceedsDiameter(w, h, d)
    ensures w <= d && h <= d
  {
    SquareBounds(w, h, d);
    SquareBounds(h, w, d);
  }

  lemma SquareBounds(a: real, o: real, r: real)
    requires a >= 0.0 && r >= 0.0 && a * a + o * o <= r * r
    ensures a <= r
  {
    SquareGrows(r, a);
    assert o * o >= 0.0;
  }

  lemma SquareGrows(r: real, a: real)
    requires r >= 0.0
    ensures r < a ==> r * r < a * a
  {
    if r < a {
      var d := a - r;
      assert d > 0.0 && a > 0.0;
      assert a * d > 0.0;
      assert r * d >= 0.0;
      assert a * a - r * r == a * d + r * d;
    }
  }

  lemma ScaledAbsMonotone(a: real, a': real, s: real)
    requires 0.0 <= a' <= a
    ensures Abs(a' * s) <= Abs(a * s)
  {
    var d := a - a';
    assert a * s == a' * s + d * s;
    if s >= 0.0 {
      assert d * s >= 0.0 && a' * s >= 0.0;
      assert Abs(a' * s) == a' * s && Abs(a * s) == a * s;
    } else {
      assert d * s <= 0.0 && a' * s <= 0.0;
      assert Abs(a' * s) == -(a' * s) && Abs(a * s) == -(a * s);
    }
  }

  lemma SquaresMonotone(a: real, a': real, b: real, b': real)
    requires 0.0 <= a' <= a && 0.0 <= b' <= b
    ensures a' * a' + b' * b' <= a * a + b * b
  {
    assert a * a - a' * a' == (a - a') * (a + a');
    assert b * b - b' * b' == (b - b') * (b + b');
  }

  /** A shorter pattern has a box no larger. */
  lemma FitMonotone(x: real, y: real, y': real, c: real, s: real)
    requires 0.0 <= y' <= y
    ensures FitWidth(x, y', c, s) <= FitWidth(x, y, c, s)
    ensures FitHeight(x, y', c, s) <= FitHeight(x, y, c, s)
  {
    ScaledAbsMonotone(y, y', s);
    RoundedSumMonotone(Abs(x * c), Abs(y' * s), Abs(y * s));
    ScaledAbsMonotone(y, y', c);
    RoundedSumMonotone(Abs(x * s), Abs(y' * c), Abs(y * c));
  }

  lemma RoundedSumMonotone(a: real, b': real, b: real)
    requires a >= 0.0 && 0.0 <= b' <= b
    ensures RoundAway0(a + b') <= RoundAway0(a + b)
  {
    RoundAway0Monotone(a + b', a + b);
  }

  /** The bed test of `validateAdvanceParameters` on a given box. */
  lemma SmallerBoxStillFits(inp: PatternInput, inp': PatternInput, fw: real, fh: real, fw': real, fh': real)
    requires inp'.roundBed == inp.roundBed && inp'.bedX == inp.bedX && inp'.bedY == inp.bedY
    requires 0.0 <= fw' <= fw && 0.0 <= fh' <= fh
    requires inp.roundBed ==> !ExceedsDiameter(fw, fh, inp.bedX)
    requires !inp.roundBed ==> fw <= inp.bedX && fh <= inp.bedY
    ensures inp.roundBed ==> !ExceedsDiameter(fw', fh', inp.bedX)
    ensures !inp.roundBed ==> fw' <= inp.bedX && fh' <= inp.bedY
  {
    if inp.roundBed {
      SquaresMonotone(fw, fw', fh, fh');
    }
  }

  /** Fewer test values make a shorter pattern: whatever fits still fits
      with fewer values. */
  lemma FewerLinesStillFit(inp: PatternInput, lines': seq<real>)
    requires |lines'| <= |inp.advanceLines|
    requires Validate(inp).None?
    ensures Validate(inp.(advanceLines := lines')).None?
  {
    var inp' := inp.(advanceLines := lines');
    var c := inp.trig.cosDeg(inp.printDir);
    var s := inp.trig.sinDeg(inp.printDir);
    var x := SizeX(inp);
    var y, y' := SizeY(inp), SizeY(inp');
    assert 0.0 <= y' <= y by {
      assert |lines'| as real <= |inp.advanceLines| as real;
    }
    FitMonotone(x, y, y', c, s);
    SmallerBoxStillFits(inp, inp', FitWidth(x, y, c, s), FitHeight(x, y, c, s), FitWidth(x, y', c, s), FitHeight(x, y', c, s));
  }

}
