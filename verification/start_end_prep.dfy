/** Preparation of the start and end blocks before the calibration pattern
    is spliced between them (src/lib/StartEndGcodePrep.ts). Klipper
    printers get a rebuilt start block, evaluated from the slicer's own
    start G-code template; every other firmware keeps the sliced block with
    the hot-end temperature and the `M555` print-area line updated. */
module StartEndPrep {
  import opened Wrappers
  import opened Text
  import opened Numbers
  import TempCommand
  import Template

  /** The rectangle the test pattern occupies on the bed. */
  datatype PrintArea = PrintArea(x: JsNumber, y: JsNumber, width: JsNumber, height: JsNumber)

  /** What the preparation throws. */
  datatype PrepError =
    | NullSetting(key: string)                   // `toValue()` of a null setting
    | NoM109                                     // no temperature line to rewrite
    | TemplateFailed(error: Template.TemplateError)

  function Message(e: PrepError): string {
    match e
    case NullSetting(key) => "SettingValue with null value was coerced! (key: " + key + ")"
    case NoM109 => "Could not find M109 in <pre>start_gcode</pre>"
    case TemplateFailed(_) => "start_gcode template could not be evaluated"
  }

  // ---------------------------------------------------------------------
  // Hot-end temperature

  /** `setFilamentTemperature`: the digit group of the last `M109` line at
      index 1 or later becomes the new temperature; without such a line it
      throws. */
  function SetFilamentTemperature(lines: seq<string>, temp: JsNumber, nt: NumberText): (r: Result<seq<string>, PrepError>)
    ensures r.Failure? <==> forall j :: 1 <= j < |lines| ==> !TempCommand.Matches(lines[j])
    ensures r.Failure? ==> r.error == NoM109
    ensures r.Success? ==> |r.value| == |lines|
    ensures r.Success? ==> exists i ::
      && 1 <= i < |lines| && TempCommand.Matches(lines[i])
      && r.value[i] == TempCommand.Rewrite(lines[i], nt.show(temp))
      && (forall j :: i < j < |lines| ==> !TempCommand.Matches(lines[j]))
      && (forall j :: 0 <= j < |lines| && j != i ==> r.value[j] == lines[j])
  {
    match TempCommand.SetLastTemperature(lines, nt.show(temp))
    case Some(updated) =>
      var i := TempCommand.LastMatchingLine(lines).value;
      assert updated[i] == TempCommand.Rewrite(lines[i], nt.show(temp));
      Success(updated)
    case None => Failure(NoM109)
  }

  // ---------------------------------------------------------------------
  // Print area

  const M555 := "M555 "

  predicate IsM555(line: string) {
    StartsWith(line, M555)
  }

  /** `M555 X${x} Y${y} W${width} H${height}`. */
  function M555Line(area: PrintArea, nt: NumberText): (r: string)
    ensures IsM555(r)
  {
    M555 + "X" + nt.show(area.x) + " Y" + nt.show(area.y) + " W" + nt.show(area.width) + " H" + nt.show(area.height)
  }

  /** `replaceM555`: the last line at index 1 or later that starts with
      `M555 ` becomes the print-area line, and the flag says whether there
      was one. */
  function ReplaceM555(lines: seq<string>, area: PrintArea, nt: NumberText): (r: (seq<string>, bool))
    ensures r.1 <==> exists j :: 1 <= j < |lines| && IsM555(lines[j])
    ensures !r.1 ==> r.0 == lines
    ensures |r.0| == |lines|
    ensures r.1 ==> exists i ::
      && 1 <= i < |lines| && IsM555(lines[i])
      && r.0[i] == M555Line(area, nt)
      && (forall j :: i < j < |lines| ==> !IsM555(lines[j]))
      && (forall j :: 0 <= j < |lines| && j != i ==> r.0[j] == lines[j])
  {
    match LastIndexFrom1(lines, IsM555)
    case Some(i) => (lines[i := M555Line(area, nt)], true)
    case None => (lines, false)
  }

  /** Replacing a second time changes nothing more: the new line is itself
      the last `M555` line. */
  lemma ReplaceM555Idempotent(lines: seq<string>, area: PrintArea, nt: NumberText)
    ensures var once := ReplaceM555(lines, area, nt).0;
      ReplaceM555(once, area, nt) == (once, ReplaceM555(lines, area, nt).1)
  {
    var once := ReplaceM555(lines, area, nt).0;
    match LastIndexFrom1(lines, IsM555)
    case Some(i) =>
      assert once == lines[i := M555Line(area, nt)];
      assert forall j :: i < j < |once| ==> once[j] == lines[j];
      assert LastIndexFrom1(once, IsM555) == Some(i);
      assert once[i := M555Line(area, nt)] == once;
    case None =>
  }

  // ---------------------------------------------------------------------
  // Thumbnail

  /** A line that, once trimmed, is empty or a comment. */
  predicate IsCommentOrBlank(line: string) {
    var t := Trim(line);
    StartsWith(t, ";") || |t| == 0
  }

  predicate IsCode(line: string) {
    !IsCommentOrBlank(line)
  }

  /** `extractThumbnail`: the leading run of comment and blank lines, where
      slicers put the embedded preview images. */
  function ExtractThumbnail(lines: seq<string>): (r: seq<string>)
    ensures |r| <= |lines| && r == lines[..|r|]
    ensures forall j :: 0 <= j < |r| ==> IsCommentOrBlank(lines[j])
    ensures |r| < |lines| ==> IsCode(lines[|r|])
  {
    match FirstIndex(lines, IsCode)
    case Some(i) => lines[..i]
    case None => lines
  }

  /** The thumbnail is the only prefix of comment and blank lines that
      stops at code or at the end. */
  lemma ThumbnailIsLongest(lines: seq<string>, k: nat)
    requires k <= |lines|
    requires forall j :: 0 <= j < k ==> IsCommentOrBlank(lines[j])
    requires k < |lines| ==> IsCode(lines[k])
    ensures ExtractThumbnail(lines) == lines[..k]
  {
  }

  /** A thumbnail is its own thumbnail. */
  lemma ThumbnailIdempotent(lines: seq<string>)
    ensures ExtractThumbnail(ExtractThumbnail(lines)) == ExtractThumbnail(lines)
  {
    var r := ExtractThumbnail(lines);
    ThumbnailIsLongest(r, |r|);
  }

  /** The thumbnail that survives the klipper rebuild. When some line is
      code, `extractThumbnail` returns a copy of the lines before it. When
      none is, it returns the start-line array itself, which the rebuild
      then clears, so nothing is put back. */
  function KeptThumbnail(lines: seq<string>): (r: seq<string>)
    ensures (exists j :: 0 <= j < |lines| && IsCode(lines[j])) ==> r == ExtractThumbnail(lines) && |r| < |lines|
    ensures (forall j :: 0 <= j < |lines| ==> IsCommentOrBlank(lines[j])) ==> r == []
  {
    match FirstIndex(lines, IsCode)
    case Some(_) => ExtractThumbnail(lines)
    case None => []
  }

  // ---------------------------------------------------------------------
  // Klipper

  const ObjectName := "pressure_advance_calibration_test"
  const DefineMarker := "EXCLUDE_OBJECT_DEFINE"

  /** The square-corner-velocity override, with a blank line either side. */
  const ScvBlock := "\nSET_VELOCITY_LIMIT SQUARE_CORNER_VELOCITY=1\n"

  const ObjectStart := "EXCLUDE_OBJECT_START NAME=" + ObjectName
  const ObjectEnd := "EXCLUDE_OBJECT_END NAME=" + ObjectName

  /** The start lines, joined without separator, define excluded objects. */
  predicate HasExcludeObject(startLines: seq<string>) {
    Contains(Join(startLines, ""), DefineMarker)
  }

  /** `EXCLUDE_OBJECT_DEFINE` for the test: its centre to three places and
      the print area's corners as polygon. */
  function DefineLine(area: PrintArea, nt: NumberText): string {
    var x, y := nt.show(area.x), nt.show(area.y);
    var xMax, yMax := nt.show(Add(area.x, area.width)), nt.show(Add(area.y, area.height));
    var xCenter := nt.toFixed(Add(area.x, Div(area.width, Num(2.0))), 3);
    var yCenter := nt.toFixed(Add(area.y, Div(area.height, Num(2.0))), 3);
    DefineMarker + " NAME=" + ObjectName + " CENTER=" + xCenter + "," + yCenter
      + " POLYGON=[[" + x + "," + y + "],[" + x + "," + yMax + "],[" + xMax + "," + yMax + "],[" + xMax + "," + y + "]]"
  }

  /** Five copies of one text: the per-extruder list of a temperature. */
  function Five(s: string): (r: seq<string>)
    ensures |r| == 5 && forall i :: 0 <= i < 5 ==> r[i] == s
  {
    [s, s, s, s, s]
  }

  /** The variables a klipper start template is likely to use. Both bed
      temperatures take `first_layer_temperature`, the hot-end one. */
  function Replacements(area: PrintArea, filamentTemp: JsNumber, bedTemp: JsNumber, nt: NumberText): (m: map<string, seq<string>>)
    ensures m.Keys == {"temperature", "bed_temperature", "first_layer_temperature", "first_layer_bed_temperature",
                       "first_layer_print_min", "first_layer_print_max", "first_layer_size"}
    ensures m["temperature"] == m["first_layer_temperature"] == Five(nt.show(filamentTemp))
    ensures m["bed_temperature"] == m["first_layer_bed_temperature"] == Five(nt.show(bedTemp))
  {
    var temp, bed := nt.show(filamentTemp), nt.show(bedTemp);
    map[
      "temperature" := Five(temp),
      "bed_temperature" := Five(bed),
      "first_layer_temperature" := Five(temp),
      "first_layer_bed_temperature" := Five(bed),
      "first_layer_print_min" := [nt.show(area.x), nt.show(area.y)],
      "first_layer_print_max" := [nt.show(Add(area.x, area.width)), nt.show(Add(area.y, area.height))],
      "first_layer_size" := [nt.show(area.width), nt.show(area.height)]
    ]
  }

  /** The layout of a rebuilt klipper start block `s` and end block `e`:
      the thumbnail, the object definition when `has`, the evaluated
      template `ev`, the velocity override and, when `has`, the object
      start; the old end lines, after the object end when `has`. */
  predicate KlipperLayout(s: seq<string>, e: seq<string>, thumb: seq<string>, has: bool, define: string,
                          ev: seq<string>, endLines: seq<string>)
  {
    var d := if has then 1 else 0;
    && |s| == |thumb| + d + |ev| + 1 + d
    && s[..|thumb|] == thumb
    && (has ==> s[|thumb|] == define)
    && s[|thumb| + d..|thumb| + d + |ev|] == ev
    && s[|thumb| + d + |ev|] == ScvBlock
    && (has ==> s[|s| - 1] == ObjectStart)
    && |e| == |endLines| + d
    && e[d..] == endLines
    && (has ==> e[0] == ObjectEnd)
  }

  /** The two blocks, put together in the order of `klipperStartGocde`. */
  function KlipperBlocks(thumb: seq<string>, has: bool, define: string, ev: seq<string>, endLines: seq<string>)
    : (r: (seq<string>, seq<string>))
    ensures KlipperLayout(r.0, r.1, thumb, has, define, ev, endLines)
  {
    var defines := if has then [define] else [];
    var open := if has then [ObjectStart] else [];
    var close := if has then [ObjectEnd] else [];
    var s := thumb + defines + ev + [ScvBlock] + open;
    assert s[..|thumb|] == thumb;
    assert s[|thumb| + |defines|..|thumb| + |defines| + |ev|] == ev;
    (s, close + endLines)
  }

  /** `klipperStartGocde`: the blocks rebuilt around the evaluated start
      template; a template that does not evaluate throws. The object
      definition is the test's own and is present exactly when the old
      start block, joined, mentioned `EXCLUDE_OBJECT_DEFINE`. */
  function KlipperStart(startLines: seq<string>, endLines: seq<string>, startGcode: string,
                        area: PrintArea, filamentTemp: JsNumber, bedTemp: JsNumber, nt: NumberText)
    : (r: Result<(seq<string>, seq<string>), PrepError>)
    ensures var ev := Template.EvaluateGcodeTemplate(startGcode, Replacements(area, filamentTemp, bedTemp, nt));
      && (r.Failure? <==> ev.Failure?)
      && (r.Failure? ==> r.error == TemplateFailed(ev.error))
      && (r.Success? ==> KlipperLayout(r.value.0, r.value.1, KeptThumbnail(startLines), HasExcludeObject(startLines),
                                       DefineLine(area, nt), ev.value, endLines))
  {
    match Template.EvaluateGcodeTemplate(startGcode, Replacements(area, filamentTemp, bedTemp, nt))
    case Failure(e) => Failure(TemplateFailed(e))
    case Success(ev) =>
      Success(KlipperBlocks(KeptThumbnail(startLines), HasExcludeObject(startLines), DefineLine(area, nt), ev, endLines))
  }

  /** A start block of comments and blank lines only loses all of them:
      the rebuilt block is the test's own lines and nothing else. */
  lemma CommentOnlyStartLosesThumbnail(startLines: seq<string>, endLines: seq<string>, startGcode: string,
                                       area: PrintArea, filamentTemp: JsNumber, bedTemp: JsNumber, nt: NumberText)
    requires forall j :: 0 <= j < |startLines| ==> IsCommentOrBlank(startLines[j])
    requires KlipperStart(startLines, endLines, startGcode, area, filamentTemp, bedTemp, nt).Success?
    ensures var (s, e) := KlipperStart(startLines, endLines, startGcode, area, filamentTemp, bedTemp, nt).value;
      var ev := Template.EvaluateGcodeTemplate(startGcode, Replacements(area, filamentTemp, bedTemp, nt)).value;
      var d := if HasExcludeObject(startLines) then 1 else 0;
      && |s| == d + |ev| + 1 + d
      && (d == 0 ==> s[..|ev|] == ev)
      && (d == 1 ==> s[0] == DefineLine(area, nt) && s[1..1 + |ev|] == ev)
  {
    var (s, e) := KlipperStart(startLines, endLines, startGcode, area, filamentTemp, bedTemp, nt).value;
    assert KeptThumbnail(startLines) == [];
  }

  /** The klipper start block ends with the object start exactly when the
      end block gained the object end. */
  lemma KlipperBracketsObject(startLines: seq<string>, endLines: seq<string>, startGcode: string,
                              area: PrintArea, filamentTemp: JsNumber, bedTemp: JsNumber, nt: NumberText)
    requires KlipperStart(startLines, endLines, startGcode, area, filamentTemp, bedTemp, nt).Success?
    ensures var (s, e) := KlipperStart(startLines, endLines, startGcode, area, filamentTemp, bedTemp, nt).value;
      s[|s| - 1] == ObjectStart <==> |e| == |endLines| + 1
  {
    var (s, e) := KlipperStart(startLines, endLines, startGcode, area, filamentTemp, bedTemp, nt).value;
    var ev := Template.EvaluateGcodeTemplate(startGcode, Replacements(area, filamentTemp, bedTemp, nt)).value;
    LayoutBracketsObject(s, e, KeptThumbnail(startLines), HasExcludeObject(startLines), DefineLine(area, nt), ev, endLines);
  }

  /** In the klipper layout the start block's last line is the object
      start exactly when the end block is one line longer. */
  lemma LayoutBracketsObject(s: seq<string>, e: seq<string>, thumb: seq<string>, has: bool, define: string,
                             ev: seq<string>, endLines: seq<string>)
    requires KlipperLayout(s, e, thumb, has, define, ev, endLines)
    ensures s[|s| - 1] == ObjectStart <==> |e| == |endLines| + 1
  {
    if !has {
      assert s[|s| - 1] == ScvBlock;
      assert |ScvBlock| != |ObjectStart|;
    }
  }

  // ---------------------------------------------------------------------
  // Entry point

  /** The settings and configuration values the preparation reads: `None`
      stands for a null setting, on which `toValue()` throws. */
  datatype PrepInput = PrepInput(
    gcodeFlavor: Option<string>,
    perimeterExtruder: Option<JsNumber>,
    firstLayerTemperature: Option<JsNumber>,
    startGcode: Option<string>,
    filamentTemperature: JsNumber,
    printArea: PrintArea)

  /** `prepareStartEndGcode`: klipper rebuilds both blocks and stops;
      other firmware rewrites the temperature only when the first-layer
      temperature differs from the test temperature, then always attempts
      the `M555` update. Result: the new start and end lines. */
  function PrepareStartEnd(input: PrepInput, startLines: seq<string>, endLines: seq<string>, nt: NumberText)
    : (r: Result<(seq<string>, seq<string>), PrepError>)
    ensures input.gcodeFlavor.None? ==> r == Failure(NullSetting("gcode_flavor"))
    ensures input.gcodeFlavor == Some("klipper") ==>
      if input.startGcode.None? then r == Failure(NullSetting("start_gcode"))
      else if input.firstLayerTemperature.None? then r == Failure(NullSetting("first_layer_temperature"))
      else r == KlipperStart(startLines, endLines, input.startGcode.value, input.printArea,
                             input.filamentTemperature, input.firstLayerTemperature.value, nt)
    ensures input.gcodeFlavor.Some? && input.gcodeFlavor != Some("klipper") ==>
      if input.perimeterExtruder.None? then r == Failure(NullSetting("perimeter_extruder"))
      else if input.firstLayerTemperature.None? then r == Failure(NullSetting("first_layer_temperature"))
      else var rewrite := !StrictEquals(input.firstLayerTemperature.value, input.filamentTemperature);
        && (r.Failure? <==> rewrite && forall j :: 1 <= j < |startLines| ==> !TempCommand.Matches(startLines[j]))
        && (r.Success? ==> r.value.1 == endLines && |r.value.0| == |startLines|)
        && (r.Success? && !rewrite ==> r.value.0 == ReplaceM555(startLines, input.printArea, nt).0)
        && (r.Success? && rewrite ==>
              r.value.0 == ReplaceM555(SetFilamentTemperature(startLines, input.filamentTemperature, nt).value,
                                       input.printArea, nt).0)
  {
    var flavour :- input.gcodeFlavor.ToResult(NullSetting("gcode_flavor"));
    if flavour == "klipper" then
      var startGcode :- input.startGcode.ToResult(NullSetting("start_gcode"));
      var bedTemp :- input.firstLayerTemperature.ToResult(NullSetting("first_layer_temperature"));
      KlipperStart(startLines, endLines, startGcode, input.printArea, input.filamentTemperature, bedTemp, nt)
    else
      var extruder :- input.perimeterExtruder.ToResult(NullSetting("perimeter_extruder"));
      var firstLayerTemp :- input.firstLayerTemperature.ToResult(NullSetting("first_layer_temperature"));
      var heated :-
        if !StrictEquals(firstLayerTemp, input.filamentTemperature)
        then SetFilamentTemperature(startLines, input.filamentTemperature, nt)
        else Success(startLines);
      Success((ReplaceM555(heated, input.printArea, nt).0, endLines))
  }

  /** Outside klipper, a line that is neither a temperature line nor an
      `M555` line leaves the preparation as it came. */
  lemma OtherLinesUntouched(input: PrepInput, startLines: seq<string>, endLines: seq<string>, nt: NumberText, j: nat)
    requires input.gcodeFlavor.Some? && input.gcodeFlavor != Some("klipper")
    requires PrepareStartEnd(input, startLines, endLines, nt).Success?
    requires j < |startLines| && !TempCommand.Matches(startLines[j]) && !IsM555(startLines[j])
    ensures PrepareStartEnd(input, startLines, endLines, nt).value.0[j] == startLines[j]
  {
    var firstLayerTemp := input.firstLayerTemperature.value;
    var heated :=
      if !StrictEquals(firstLayerTemp, input.filamentTemperature)
      then SetFilamentTemperature(startLines, input.filamentTemperature, nt).value
      else startLines;
    assert heated[j] == startLines[j];
  }

  /** Line 0 is never rewritten outside klipper. */
  lemma FirstLineUntouched(input: PrepInput, startLines: seq<string>, endLines: seq<string>, nt: NumberText)
    requires input.gcodeFlavor.Some? && input.gcodeFlavor != Some("klipper")
    requires PrepareStartEnd(input, startLines, endLines, nt).Success? && |startLines| > 0
    ensures PrepareStartEnd(input, startLines, endLines, nt).value.0[0] == startLines[0]
  {
    var firstLayerTemp := input.firstLayerTemperature.value;
    var heated :=
      if !StrictEquals(firstLayerTemp, input.filamentTemperature)
      then SetFilamentTemperature(startLines, input.filamentTemperature, nt).value
      else startLines;
    assert heated[0] == startLines[0];
  }
}
