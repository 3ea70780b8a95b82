/** The helpers of the earlier single-page tool (js/ux.js) that do not
    touch the page: list and bed-shape parsing, reading the settings,
    finding the object's start and end, the temperature rewrite, the final
    splice of the calibration text into the file, and the choice of the
    pressure-advance command. Where the TypeScript version records an
    error these helpers throw; a throw is a `Failure`. */
module Legacy {
  import opened Wrappers
  import opened Text
  import opened Numbers
  import GcodeFile
  import TempCommand
  import Settings
  import Configuration

  /** What the helpers throw. `NotAString` is the `TypeError` of calling
      a string method on `undefined`. */
  datatype LegacyError =
    | NotEnoughEntries(toolNumber: JsNumber)
    | NonZeroOrigin
    | RoundBed
    | NoObjectStart
    | NoObjectEnd
    | NoTemperatureSet
    | UnsupportedFirmware
    | NotAString
    | MissingRequired

  // ---------------------------------------------------------------------
  // Parsing

  /** `splitToTools`: entry `toolNumber - 1` of the comma-separated list;
      a list shorter than the tool number throws. A `null` tool number
      behaves as 0 in both the comparison and the index, so it is passed
      as `Num(0.0)`; an index that is not a whole number within the list
      reads `undefined` (`None`). */
  function SplitToTools(value: string, toolNumber: JsNumber): (r: Result<Option<string>, LegacyError>)
    ensures r.Failure? <==> Less(Num(|Split(value, ',')| as real), toolNumber)
    ensures r.Failure? ==> r.error == NotEnoughEntries(toolNumber)
    ensures r.Success? && r.value.Some? ==> r.value.value in Split(value, ',')
  {
    var toolValues := Split(value, ',');
    if Less(Num(|toolValues| as real), toolNumber) then Failure(NotEnoughEntries(toolNumber))
    else Success(Settings.ToolEntry(toolValues, toolNumber))
  }

  /** The entries of a comma-joined list come back one per tool: tool `k`
      reads entry `k - 1`, and a tool number past the list throws. */
  lemma SplitToToolsPicksEntry(entries: seq<string>, k: nat)
    requires |entries| >= 1
    requires forall i, j :: 0 <= i < |entries| && 0 <= j < |entries[i]| ==> entries[i][j] != ','
    ensures 1 <= k <= |entries| ==> SplitToTools(Join(entries, ","), Num(k as real)) == Success(Some(entries[k - 1]))
    ensures k > |entries| ==> SplitToTools(Join(entries, ","), Num(k as real)) == Failure(NotEnoughEntries(Num(k as real)))
  {
    SplitJoin(entries, ',');
    assert (k as real).Floor == k;
  }

  /** The list check is the one of the TypeScript `parseToolFloat`: both
      throw for exactly the same tool numbers. */
  lemma SplitToToolsThrowsLikeToolFloat(key: string, value: string, toolNumber: JsNumber, nt: NumberText)
    ensures SplitToTools(value, toolNumber).Failure? <==> Settings.ToolFloat(key, value, Some(toolNumber), nt).Failure?
  {
  }

  /** The bed `parseBedShape` returns: the shape name and the third
      corner's two sides, as text; `y` is `undefined` without an `x` in
      the corner. */
  datatype LegacyBed = LegacyBed(shape: string, x: string, y: Option<string>)

  /** `parseBedShape`: four corners starting at `0x0` give a `Rect` sized
      by the third corner; four corners elsewhere and any other count
      throw. */
  function ParseBedShape(value: string): (r: Result<LegacyBed, LegacyError>)
    ensures r.Success? <==> |Split(value, ',')| == 4 && Split(value, ',')[0] == "0x0"
    ensures r.Failure? ==> (r.error == RoundBed <==> |Split(value, ',')| != 4)
    ensures r.Failure? ==> r.error == RoundBed || r.error == NonZeroOrigin
    ensures r.Success? ==>
      var bedMax := Split(Split(value, ',')[2], 'x');
      && r.value.shape == "Rect"
      && r.value.x == bedMax[0]
      && r.value.y == (if |bedMax| > 1 then Some(bedMax[1]) else None)
  {
    var parts := Split(value, ',');
    if |parts| == 4 then
      if parts[0] != "0x0" then Failure(NonZeroOrigin)
      else
        var bedMax := Split(parts[2], 'x');
        Success(LegacyBed("Rect", bedMax[0], if |bedMax| > 1 then Some(bedMax[1]) else None))
    else Failure(RoundBed)
  }

  /** The bed shape PrusaSlicer writes for a `w` by `h` bed,
      `0x0,wx0,wxh,0xh`, reads back as a `w` by `h` rectangle. */
  lemma BedShapeRoundTrip(w: string, h: string)
    requires forall i :: 0 <= i < |w| ==> w[i] != ',' && w[i] != 'x'
    requires forall i :: 0 <= i < |h| ==> h[i] != ',' && h[i] != 'x'
    ensures ParseBedShape("0x0," + w + "x0," + w + "x" + h + ",0x" + h) == Success(LegacyBed("Rect", w, Some(h)))
  {
    var corners := ["0x0", w + "x0", w + "x" + h, "0x" + h];
    forall i, j | 0 <= i < |corners| && 0 <= j < |corners[i]|
      ensures corners[i][j] != ','
    {
      if i == 1 && j >= |w| {
        assert corners[1][j] == "x0"[j - |w|];
      } else if i == 2 && j >= |w| {
        assert corners[2][j] == ("x" + h)[j - |w|];
      } else if i == 3 && j >= 2 {
        assert corners[3][j] == h[j - 2];
      }
    }
    assert Join(corners[3..], ",") == "0x" + h;
    assert Join(corners[2..], ",") == w + "x" + h + "," + "0x" + h;
    assert Join(corners[1..], ",") == w + "x0" + "," + (w + "x" + h + "," + "0x" + h);
    assert Join(corners, ",") == "0x0," + w + "x0," + w + "x" + h + ",0x" + h;
    SplitJoin(corners, ',');
    assert Join([w, h], "x") == w + "x" + h;
    SplitJoin([w, h], 'x');
  }

  /** The legacy parser accepts exactly the beds the TypeScript parser
      accepts, with the same throws for the same shapes, and the
      TypeScript sides are the legacy sides parsed. */
  lemma BedShapeLikeProcessor(value: string, nt: NumberText)
    ensures var legacy := ParseBedShape(value);
      var ts := Settings.BedShapeOf(value, nt);
      && (legacy.Success? <==> ts.0.Some?)
      && (legacy.Failure? && legacy.error == RoundBed <==> ts == (None, [Settings.RoundBed]))
      && (legacy.Failure? && legacy.error == NonZeroOrigin <==> ts == (None, [Settings.NonZeroOrigin]))
      && (legacy.Success? ==> ts.0.value.bed.x == nt.parseInt(legacy.value.x))
      && (legacy.Success? ==> ts.0.value.bed.y == nt.parseInt(legacy.value.y.GetOr(UndefinedText)))
  {
    if ParseBedShape(value).Success? {
      Settings.BedShapeCorner(value, nt);
    }
  }

  // ---------------------------------------------------------------------
  // Reading the file

  /** `loadPrusaSlicerSettings`: the forward loop storing every setting
      line's value under its key computes the processor's settings map,
      so the last line for a key wins. */
  method LoadPrusaSlicerSettings(gcodeLines: seq<string>) returns (settings: map<string, string>)
    ensures settings == GcodeFile.ExtractSettings(gcodeLines)
    ensures forall key :: key in settings <==> exists i :: 0 <= i < |gcodeLines| && GcodeFile.SetsKey(gcodeLines[i], key)
  {
    settings := map[];
    var i := 0;
    while i < |gcodeLines|
      invariant 0 <= i <= |gcodeLines|
      invariant settings == GcodeFile.ExtractSettings(gcodeLines[..i])
    {
      var results := GcodeFile.MatchSetting(gcodeLines[i]);
      assert gcodeLines[..i + 1][..i] == gcodeLines[..i];
      if results.Some? {
        settings := settings[results.value.0 := results.value.1];
      }
      i := i + 1;
    }
    assert gcodeLines[..i] == gcodeLines;
  }

  /** `stripTypeCustom`: the filter keeping every line but `;TYPE:Custom`
      is the processor's `#stripTypeCustom`. */
  method StripTypeCustom(lines: seq<string>) returns (kept: seq<string>)
    ensures kept == GcodeFile.StripTypeCustom(lines)
    ensures GcodeFile.TypeCustom !in kept
  {
    kept := [];
    var i := 0;
    while i < |lines|
      invariant 0 <= i <= |lines|
      invariant kept == GcodeFile.StripTypeCustom(lines[..i])
    {
      assert lines[..i + 1] == lines[..i] + [lines[i]];
      GcodeFile.StripTypeCustomAppend(lines[..i], [lines[i]]);
      assert [lines[i]][1..] == [];
      if lines[i] != GcodeFile.TypeCustom {
        kept := kept + [lines[i]];
      }
      i := i + 1;
    }
    assert lines[..i] == lines;
  }

  /** `findObjectStart`: the index of the first `;AFTER_LAYER_CHANGE`,
      where the processor's start block ends. */
  method FindObjectStart(lines: seq<string>) returns (r: Result<nat, LegacyError>)
    ensures r.Failure? <==> GcodeFile.StartMarker !in lines
    ensures r.Failure? ==> r.error == NoObjectStart
    ensures r.Success? ==> r.value < |lines| && lines[r.value] == GcodeFile.StartMarker
    ensures r.Success? ==> GcodeFile.FindStartGcode(lines) == Success(lines[..r.value])
  {
    var i := 0;
    while i < |lines|
      invariant 0 <= i <= |lines|
      invariant forall j :: 0 <= j < i ==> lines[j] != GcodeFile.StartMarker
    {
      if lines[i] == GcodeFile.StartMarker {
        var block := GcodeFile.FindStartGcode(lines).value;
        assert forall j :: 0 <= j < |block| ==> lines[j] != GcodeFile.StartMarker by {
          forall j | 0 <= j < |block|
            ensures lines[j] != GcodeFile.StartMarker
          {
            assert block[j] == lines[j];
          }
        }
        assert lines[|block|] == GcodeFile.StartMarker;
        return Success(i);
      }
      i := i + 1;
    }
    return Failure(NoObjectStart);
  }

  /** `findObjectEnd`: the index of the last `; Filament-specific end
      gcode` at index 1 or later, where the processor's end block
      starts. */
  method FindObjectEnd(lines: seq<string>) returns (r: Result<nat, LegacyError>)
    ensures r.Failure? <==> |lines| == 0 || GcodeFile.EndMarker !in lines[1..]
    ensures r.Failure? ==> r.error == NoObjectEnd
    ensures r.Success? ==> 1 <= r.value < |lines| && lines[r.value] == GcodeFile.EndMarker
    ensures r.Success? ==> GcodeFile.FindEndGcode(lines) == Success(lines[r.value..])
  {
    var i := |lines| - 1;
    while i > 0
      invariant -1 <= i < |lines|
      invariant forall j :: i < j < |lines| && j >= 1 ==> lines[j] != GcodeFile.EndMarker
    {
      if lines[i] == GcodeFile.EndMarker {
        var block := GcodeFile.FindEndGcode(lines).value;
        var p := |lines| - |block|;
        assert lines[p] == GcodeFile.EndMarker;
        assert forall j :: p < j < |lines| ==> lines[j] != GcodeFile.EndMarker by {
          forall j | p < j < |lines|
            ensures lines[j] != GcodeFile.EndMarker
          {
            assert lines[j] == block[1..][j - p - 1];
          }
        }
        return Success(i);
      }
      i := i - 1;
    }
    if |lines| > 0 {
      assert forall j :: 0 <= j < |lines| - 1 ==> lines[1..][j] == lines[j + 1];
    }
    return Failure(NoObjectEnd);
  }

  // ---------------------------------------------------------------------
  // The splice

  /** `updateLastTemperatureCommand`: the temperature of the last `M109`
      line at index 1 or later is replaced; without one it throws. */
  function UpdateLastTemperatureCommand(lines: seq<string>, temp: JsNumber, nt: NumberText)
    : (r: Result<seq<string>, LegacyError>)
    ensures r.Failure? <==> forall j :: 1 <= j < |lines| ==> !TempCommand.Matches(lines[j])
    ensures r.Failure? ==> r.error == NoTemperatureSet
    ensures r.Success? ==> |r.value| == |lines|
    ensures r.Success? ==> exists i ::
      && 1 <= i < |lines| && TempCommand.Matches(lines[i])
      && r.value[i] == TempCommand.Rewrite(lines[i], nt.show(temp))
      && (forall j :: i < j < |lines| ==> !TempCommand.Matches(lines[j]))
      && (forall j :: 0 <= j < |lines| && j != i ==> r.value[j] == lines[j])
  {
    match TempCommand.SetLastTemperature(lines, nt.show(temp))
    case Some(updated) =>
      var i := TempCommand.LastMatchingLine(lines).value;
      assert updated[i] == TempCommand.Rewrite(lines[i], nt.show(temp));
      Success(updated)
    case None => Failure(NoTemperatureSet)
  }

  /** The start block `generateTestGCode` keeps: the processor's start
      block and the marker line after it. */
  function KeptStart(lines: seq<string>): (head: seq<string>)
    requires GcodeFile.StartMarker in lines
    ensures |head| >= 1 && head[|head| - 1] == GcodeFile.StartMarker && head <= lines
  {
    var block := GcodeFile.FindStartGcode(lines).value;
    assert lines[..|block| + 1] == block + [GcodeFile.StartMarker];
    block + [GcodeFile.StartMarker]
  }

  /** `generateTestGCode` (the text only): the lines up to and including
      the start marker, with the hot-end temperature rewritten, joined by
      newlines; the calibration text; the lines from the end marker on,
      joined by newlines. The start marker is looked for first, then the
      end marker, then the temperature line. */
  method GenerateTestGCode(gcodeLines: seq<string>, calibrationGCode: string, temp: JsNumber, nt: NumberText)
    returns (r: Result<string, LegacyError>)
    ensures GcodeFile.StartMarker !in gcodeLines ==> r == Failure(NoObjectStart)
    ensures GcodeFile.StartMarker in gcodeLines && GcodeFile.FindEndGcode(gcodeLines).Failure? ==> r == Failure(NoObjectEnd)
    ensures GcodeFile.StartMarker in gcodeLines && GcodeFile.FindEndGcode(gcodeLines).Success? ==>
      var updated := UpdateLastTemperatureCommand(KeptStart(gcodeLines), temp, nt);
      && (updated.Failure? ==> r == Failure(NoTemperatureSet))
      && (updated.Success? ==>
            r == Success(Join(updated.value, "\n") + calibrationGCode + Join(GcodeFile.FindEndGcode(gcodeLines).value, "\n")))
  {
    var startIndex := FindObjectStart(gcodeLines);
    if startIndex.Failure? {
      return Failure(startIndex.error);
    }
    var endIndex := FindObjectEnd(gcodeLines);
    if endIndex.Failure? {
      return Failure(endIndex.error);
    }
    var startLines := gcodeLines[..startIndex.value + 1];
    assert startLines == KeptStart(gcodeLines);
    var endLines := gcodeLines[endIndex.value..];
    var updated := UpdateLastTemperatureCommand(startLines, temp, nt);
    if updated.Failure? {
      return Failure(updated.error);
    }
    return Success(Join(updated.value, "\n") + calibrationGCode + Join(endLines, "\n"));
  }

  // ---------------------------------------------------------------------
  // The pressure-advance command

  const KlipperTemplate := "PRESSURE_ADVANCE EXTRUDER=${extruder} ADVANCE="
  const ReprapTemplate := "M572 D${toolIndex} S"

  /** `selectAdvanceGCodePrefix` (the returned value): for klipper and
      RepRapFirmware the text with its `${...}` placeholders left in, for
      a flavour mentioning marlin the Prusa or Marlin command by printer
      model. A missing flavour, or a missing model for a marlin flavour,
      is the `TypeError` of matching `undefined`; any other flavour
      throws. */
  function SelectAdvanceGCodePrefix(flavour: Option<string>, printerModel: Option<string>)
    : (r: Result<string, LegacyError>)
    ensures r.Success? <==>
      flavour.Some? &&
      (flavour.value == "klipper" || flavour.value == "reprapfirmware" ||
       (Configuration.IsMarlinFlavour(flavour.value) && printerModel.Some?))
    ensures flavour.None? ==> r == Failure(NotAString)
    ensures (flavour.Some? && flavour.value != "klipper" && flavour.value != "reprapfirmware" &&
             !Configuration.IsMarlinFlavour(flavour.value)) ==> r == Failure(UnsupportedFirmware)
    ensures flavour == Some("klipper") ==> r == Success(KlipperTemplate)
    ensures flavour == Some("reprapfirmware") ==> r == Success(ReprapTemplate)
    ensures flavour.Some? && flavour.value != "klipper" && flavour.value != "reprapfirmware" &&
            Configuration.IsMarlinFlavour(flavour.value) ==>
      match printerModel
      case None => r == Failure(NotAString)
      case Some(m) => r == Success(if Configuration.IsInputShaperModel(m) then "M572 S" else "M900 K")
    ensures r.Success? ==> StartsWith(r.value, "PRESSURE_ADVANCE ") || StartsWith(r.value, "M572 ") || StartsWith(r.value, "M900 ")
  {
    TemplatesArePaCommands();
    match flavour
    case None => Failure(NotAString)
    case Some(f) =>
      if f == "klipper" then Success(KlipperTemplate)
      else if f == "reprapfirmware" then Success(ReprapTemplate)
      else if Configuration.IsMarlinFlavour(f) then
        match printerModel
        case None => Failure(NotAString)
        case Some(m) => Success(if Configuration.IsInputShaperModel(m) then "M572 S" else "M900 K")
      else Failure(UnsupportedFirmware)
  }

  lemma TemplatesArePaCommands()
    ensures StartsWith(KlipperTemplate, "PRESSURE_ADVANCE ") && StartsWith(ReprapTemplate, "M572 ")
    ensures StartsWith("M572 S", "M572 ") && StartsWith("M900 K", "M900 ")
  {
    assert KlipperTemplate[..17] == "PRESSURE_ADVANCE ";
    assert ReprapTemplate[..5] == "M572 ";
    assert "M572 S"[..5] == "M572 ";
    assert "M900 K"[..5] == "M900 ";
  }

  /** The TypeScript selection with both settings present. */
  function TsPrefix(f: string, m: string, toolIndex: JsNumber, nt: NumberText)
    : (r: Result<Configuration.ExplainedValue<Configuration.PressureAdvanceGCode>, Configuration.ConfigError>)
  {
    Configuration.SelectAdvanceGCodePrefix(
      Configuration.Setting("gcode_flavor", Some(f), None), Configuration.Setting("printer_model", Some(m), None), toolIndex, nt)
  }

  /** Against the TypeScript selection with both settings present, the
      same flavours succeed, and marlin flavours get the same command. */
  lemma PrefixAgreesOnMarlin(f: string, m: string, toolIndex: JsNumber, nt: NumberText)
    ensures SelectAdvanceGCodePrefix(Some(f), Some(m)).Success? <==> TsPrefix(f, m, toolIndex, nt).Success?
    ensures f != "klipper" && f != "reprapfirmware" && SelectAdvanceGCodePrefix(Some(f), Some(m)).Success? ==>
      SelectAdvanceGCodePrefix(Some(f), Some(m)).value == TsPrefix(f, m, toolIndex, nt).value.value.gcodePrefix
  {
  }

  /** The klipper texts differ: the legacy one keeps its `${extruder}`
      placeholder. */
  lemma KlipperPrefixDiffers(m: string, toolIndex: JsNumber, nt: NumberText)
    ensures SelectAdvanceGCodePrefix(Some("klipper"), Some(m)).value != TsPrefix("klipper", m, toolIndex, nt).value.value.gcodePrefix
  {
    KlipperTextsDiffer(TsPrefix("klipper", m, toolIndex, nt).value.value.gcodePrefix);
  }

  /** The RepRapFirmware texts agree only if the tool index prints as the
      legacy placeholder `${toolIndex}`. */
  lemma ReprapPrefixDiffers(m: string, toolIndex: JsNumber, nt: NumberText)
    ensures SelectAdvanceGCodePrefix(Some("reprapfirmware"), Some(m)).value == TsPrefix("reprapfirmware", m, toolIndex, nt).value.value.gcodePrefix
        <==> nt.show(toolIndex) == "${toolIndex}"
  {
    assert ReprapTemplate == "M572 D" + "${toolIndex}" + " S";
    InfixEquality("M572 D", " S", nt.show(toolIndex), "${toolIndex}");
  }

  /** A command naming the extruder differs from the text with the
      `${extruder}` placeholder. */
  lemma KlipperTextsDiffer(p: string)
    requires StartsWith(p, Configuration.KlipperCommand)
    ensures p != KlipperTemplate
  {
    assert p[..|Configuration.KlipperCommand|][26] == 'e';
    assert KlipperTemplate[26] == '$';
  }

  /** Two texts with the same front and back are equal exactly when their
      middles are. */
  lemma InfixEquality(front: string, back: string, a: string, b: string)
    ensures front + a + back == front + b + back <==> a == b
  {
    if front + a + back == front + b + back {
      var s := front + a + back;
      assert |a| == |b|;
      assert a == s[|front|..|front| + |a|];
      assert b == (front + b + back)[|front|..|front| + |b|];
    }
  }

  // ---------------------------------------------------------------------
  // Required settings

  /** An element of a `requiredSettings` entry as JavaScript sees it: a
      parser or describer function, or the `isRequired` flag. */
  datatype Field = Function(name: string) | Flag(on: bool)

  /** One `requiredSettings` entry: the key, and the array of parser,
      describer and `isRequired` flag stored under it. */
  datatype Row = Row(key: string, parser: string, describer: string, required: bool)

  /** The entry's array `[parser, describer, isRequired]`. */
  function Fields(row: Row): (fs: seq<Field>)
    ensures |fs| == 3 && fs[2] == Flag(row.required)
  {
    [Function(row.parser), Function(row.describer), Flag(row.required)]
  }

  /** `array[i]`: `undefined` past the end. */
  function At(fields: seq<Field>, i: nat): (v: Option<Field>)
    ensures v.Some? <==> i < |fields|
  {
    if i < |fields| then Some(fields[i]) else None
  }

  /** JavaScript truthiness: functions and `true` are truthy, `false` and
      `undefined` are not. */
  predicate Truthy(v: Option<Field>) {
    v.Some? && (v.value.Function? || v.value.on)
  }

  /** The `requiredSettings` table. */
  const RequiredSettings: seq<Row> := [
    Row("printer_model", "parseString", "describeString", true),
    Row("gcode_flavor", "parseString", "describeString", true),
    Row("filament_settings_id", "parseString", "describeString", true),
    Row("bed_shape", "parseBedShape", "describeBedShape", true),
    Row("perimeter_extruder", "parseSingleInt", "describeNumber", true),
    Row("nozzle_diameter", "parseToolFloat", "describeMm", true),
    Row("bed_temperature", "parseToolFloat", "describeTemp", true),
    Row("external_perimeter_extrusion_width", "parseSingleFloat", "describeMm", true),
    Row("extrusion_multiplier", "parseToolFloat", "describeNumber", true),
    Row("temperature", "parseToolFloat", "describeTemp", true),
    Row("first_layer_temperature", "parseToolFloat", "describeTemp", true),
    Row("filament_diameter", "parseToolFloat", "describeMm", true),
    Row("filament_retract_length", "parseToolFloat", "describeMm", false),
    Row("filament_retract_lift", "parseToolFloat", "describeMm", false),
    Row("infill_acceleration", "parseSingleInt", "describeMms", true),
    Row("perimeter_acceleration", "parseSingleInt", "describeMms", true),
    Row("perimeter_extrusion_width", "parseSingleFloat", "describeMm", true),
    Row("perimeter_speed", "parseSingleInt", "describeMms", true),
    Row("travel_speed", "parseSingleInt", "describeMms", true),
    Row("travel_speed_z", "parseSingleInt", "describeMms", true),
    Row("retract_length", "parseToolFloat", "describeMm", true),
    Row("retract_before_travel", "parseToolFloat", "describeMm", true),
    Row("retract_restart_extra", "parseToolFloat", "describeMm", true),
    Row("retract_speed", "parseToolFloat", "describeMms", true),
    Row("deretract_speed", "parseToolFloat", "describeMms", true),
    Row("layer_height", "parseFloat", "describeMm", true),
    Row("disable_fan_first_layers", "parseToolFloat", "describeNumber", true),
    Row("first_layer_speed", "parseFloat", "describeMms", true),
    Row("min_fan_speed", "parseToolFloat", "describePercent", true),
    Row("infill_speed", "parseFloat", "describeMms", true),
    Row("max_volumetric_speed", "parseFloat", "describeMmCubed", true),
    Row("filament_max_volumetric_speed", "parseFloat", "describeMmCubed", false)
  ]

  /** `hasAllSettings` of `checkRequiredSettings` as written: a missing
      key clears it when the element at index 3 of its array is truthy. */
  function HasAllSettingsAsWritten(table: seq<Row>, present: set<string>): (all: bool)
    ensures all <==> forall i :: 0 <= i < |table| ==> table[i].key in present || !Truthy(At(Fields(table[i]), 3))
  {
    if |table| == 0 then true
    else
      var rest := HasAllSettingsAsWritten(table[1..], present);
      assert forall i :: 1 <= i < |table| ==> table[i] == table[1..][i - 1];
      (table[0].key in present || !Truthy(At(Fields(table[0]), 3))) && rest
  }

  /** The arrays have three elements, so the element at index 3 is always
      `undefined` and no missing setting is ever reported. */
  lemma AsWrittenNeverMissesAnything(table: seq<Row>, present: set<string>)
    ensures HasAllSettingsAsWritten(table, present)
  {
  }

  /** A file without a single setting passes the check as written,
      although `printer_model` is marked required. */
  lemma AsWrittenAcceptsEmptyFile()
    ensures RequiredSettings[0].key == "printer_model" && Fields(RequiredSettings[0])[2] == Flag(true)
    ensures HasAllSettingsAsWritten(RequiredSettings, {})
  {
    AsWrittenNeverMissesAnything(RequiredSettings, {});
  }

  /** The entry's `isRequired` flag, at index 2. */
  predicate IsRequired(row: Row) {
    Truthy(At(Fields(row), 2))
  }

  /** `hasAllSettings` as evidently intended: every missing key belongs
      to an optional entry. */
  function HasAllSettings(table: seq<Row>, present: set<string>): (all: bool)
    ensures all <==> forall i :: 0 <= i < |table| ==> table[i].key in present || !IsRequired(table[i])
  {
    if |table| == 0 then true
    else
      var rest := HasAllSettings(table[1..], present);
      assert forall i :: 1 <= i < |table| ==> table[i] == table[1..][i - 1];
      (table[0].key in present || !IsRequired(table[0])) && rest
  }

  /** `checkRequiredSettings`, corrected: it throws exactly when a
      required key is missing. */
  function CheckRequiredSettings(present: set<string>): (r: Option<LegacyError>)
    ensures r.Some? <==> exists i :: 0 <= i < |RequiredSettings| && RequiredSettings[i].key !in present
                                     && RequiredSettings[i].required
    ensures r.Some? ==> r.value == MissingRequired
  {
    if HasAllSettings(RequiredSettings, present) then None else Some(MissingRequired)
  }

  /** The corrected check rejects a file without a single setting. */
  lemma CorrectedRejectsEmptyFile()
    ensures CheckRequiredSettings({}) == Some(MissingRequired)
  {
    assert RequiredSettings[0].required;
  }
}
