/** The slicer settings the calibration needs (`RequiredSlicerSettings` in
    src/lib/GcodeProcessor.ts): every setting is looked up by key in the
    settings found in the G-code file, parsed, described for display, and
    its errors are collected; a missing required setting is an error, a
    missing optional one is not. Parsers of per-tool lists throw when the
    list is too short, which aborts the whole construction. */
module Settings {
  import opened Wrappers
  import opened Text
  import opened Numbers

  datatype ShapeKind = Rectangular | Round

  /** `BedShape`: the bed's outline and its size. */
  datatype BedShape = BedShape(shape: ShapeKind, x: JsNumber, y: JsNumber)

  /** The value a parser stores: a number, a string, or a bed shape. */
  datatype Value = NumberValue(n: JsNumber) | TextValue(s: string) | BedValue(bed: BedShape)

  /** The errors a setting can record (each is one message string in the
      original program; see `Message`). */
  datatype SettingError =
    | NotANumber(key: string, raw: string)
    | ExtruderMissing(key: string, raw: string)
    | NonZeroOrigin
    | RoundBed
    | RawNotANumber(n: JsNumber)
    | RequiredMissing

  /** What a parser throws: a per-tool list with too few entries, or the
      `TypeError` of calling `substring` on the `undefined` entry a
      non-positive or non-integer tool number selects. */
  datatype Thrown =
    | NotEnoughToolEntries(key: string, raw: string, tool: JsNumber)
    | SubstringOfUndefined(key: string)

  /** `SettingValue`: a setting's key, raw text, parsed value (`None` is
      `null`), display text (`None` is `null`) and errors. */
  datatype SettingValue = SettingValue(
    key: string, raw: string, value: Option<Value>, display: Option<string>, errors: seq<SettingError>)

  datatype ParserKind = ParseString | ParseToolString | ParseSingleInt | ParseSingleFloat | ParseToolFloat | ParseBedShape

  datatype DescriberKind =
    | DescribeString | DescribeNumber | DescribePercent | DescribeMms | DescribeMm
    | DescribeMmCubed | DescribeMmsSquared | DescribeTemp | DescribeBedShape

  /** `SettingsDescriptor`, together with the name of the field of
      `RequiredSlicerSettings` that receives the value. */
  datatype Descriptor = Descriptor(
    field: string, key: string, parser: ParserKind, describer: DescriberKind, required: bool)

  /** The text of an error as the original program words it. */
  function Message(e: SettingError, nt: NumberText): string {
    match e
    case NotANumber(key, raw) => "Setting '" + key + "' (" + raw + ") is not a number"
    case ExtruderMissing(key, raw) =>
      "Can't unpack '" + key + "' (" + raw + ") because the setting for 'primary_extruder' is missing"
    case NonZeroOrigin => "Square bed with non-zero origin found! This is not supported."
    case RoundBed => "Round Beds are not supported yet... sorry delta fans"
    case RawNotANumber(n) => "Value '" + nt.show(n) + "' is not a number"
    case RequiredMissing => "Required setting not found"
  }

  /** `validateNumber` on a freshly parsed number. */
  function ValidateNumber(key: string, raw: string, n: JsNumber): (errors: seq<SettingError>)
    ensures errors == [] <==> IsFinite(n)
    ensures |errors| <= 1
  {
    if IsFinite(n) then [] else [NotANumber(key, raw)]
  }

  /** `validateNumberRaw`, as used by `_parseInt`. */
  function ValidateRaw(n: JsNumber): (errors: seq<SettingError>)
    ensures errors == [] <==> IsFinite(n)
    ensures |errors| <= 1
  {
    if IsFinite(n) then [] else [RawNotANumber(n)]
  }

  /** `parts[tool - 1]`: present only when `tool - 1` is a whole number
      indexing the list; `undefined` otherwise. */
  function ToolEntry(parts: seq<string>, tool: JsNumber): (r: Option<string>)
    ensures r.Some? <==> tool.Num? && tool.r.Floor as real == tool.r && 1 <= tool.r.Floor <= |parts|
    ensures r.Some? ==> r.value == parts[tool.r.Floor - 1]
  {
    // `tool - 1` is a whole index exactly when `tool` is a whole number.
    match tool
    case Num(t) => if t.Floor as real == t && 1 <= t.Floor <= |parts| then Some(parts[t.Floor - 1]) else None
    case _ => None
  }

  /** Tool `k` of a comma-separated list picks entry `k - 1` when the
      entries hold no comma; a tool past the list, or tool 0, picks
      nothing. */
  lemma ToolEntryPicksJoined(entries: seq<string>, k: nat)
    requires |entries| >= 1
    requires forall i, j :: 0 <= i < |entries| && 0 <= j < |entries[i]| ==> entries[i][j] != ','
    ensures 1 <= k <= |entries| ==> ToolEntry(Split(Join(entries, ","), ','), Num(k as real)) == Some(entries[k - 1])
    ensures (k == 0 || k > |entries|) ==> ToolEntry(Split(Join(entries, ","), ','), Num(k as real)) == None
  {
    SplitJoin(entries, ',');
    assert (k as real).Floor == k;
  }

  /** A parser's outcome: the stored value and the recorded errors. */
  type Parsed = (Option<Value>, seq<SettingError>)

  /** `parseToolString`: entry `tool - 1` of the `;`-separated list, with
      its first and last characters (the quotes) removed. */
  function ToolString(key: string, raw: string, tool: Option<JsNumber>): (r: Result<Parsed, Thrown>)
    ensures tool.None? ==> r == Success((None, [ExtruderMissing(key, raw)]))
    ensures tool.Some? && Less(Num(|Split(raw, ';')| as real), tool.value) ==>
      r == Failure(NotEnoughToolEntries(key, raw, tool.value))
    ensures r.Success? && tool.Some? ==>
      && r.value.1 == []
      && ToolEntry(Split(raw, ';'), tool.value).Some?
      && var q := ToolEntry(Split(raw, ';'), tool.value).value;
         r.value.0 == Some(TextValue(JsSubstring(q, 1, |q| - 1)))
    ensures tool.Some? && !Less(Num(|Split(raw, ';')| as real), tool.value) ==>
      (r.Success? <==> ToolEntry(Split(raw, ';'), tool.value).Some?)
    ensures tool.Some? && !Less(Num(|Split(raw, ';')| as real), tool.value) ==>
      ToolEntry(Split(raw, ';'), tool.value).None? ==> r == Failure(SubstringOfUndefined(key))
  {
    match tool
    case None => Success((None, [ExtruderMissing(key, raw)]))
    case Some(t) =>
      var parts := Split(raw, ';');
      if Less(Num(|parts| as real), t) then Failure(NotEnoughToolEntries(key, raw, t))
      else
        match ToolEntry(parts, t)
        case None => Failure(SubstringOfUndefined(key))
        case Some(q) => Success((Some(TextValue(JsSubstring(q, 1, |q| - 1))), []))
  }

  /** Each value written between quotes and joined with `;` reads back
      as itself for its tool; a tool past the list throws, and tool 0
      reads entry -1, which is `undefined`, and throws on `substring`. */
  lemma ToolStringReadsQuoted(key: string, values: seq<string>, k: nat)
    requires |values| >= 1
    requires forall i, j :: 0 <= i < |values| && 0 <= j < |values[i]| ==> values[i][j] != ';'
    ensures var raw := Join(Quoted(values), ";");
      && (1 <= k <= |values| ==> ToolString(key, raw, Some(Num(k as real))) == Success((Some(TextValue(values[k - 1])), [])))
      && (k > |values| ==> ToolString(key, raw, Some(Num(k as real))) == Failure(NotEnoughToolEntries(key, raw, Num(k as real))))
      && (k == 0 ==> ToolString(key, raw, Some(Num(k as real))) == Failure(SubstringOfUndefined(key)))
  {
    var quoted := Quoted(values);
    forall i, j | 0 <= i < |quoted| && 0 <= j < |quoted[i]|
      ensures quoted[i][j] != ';'
    {
      if 0 < j < |quoted[i]| - 1 {
        assert quoted[i][j] == values[i][j - 1];
      }
    }
    SplitJoin(quoted, ';');
    assert (k as real).Floor == k;
    if 1 <= k <= |values| {
      var q := quoted[k - 1];
      assert q[1..|q| - 1] == values[k - 1];
    }
  }

  /** Each value between double quotes, as the slicer writes string lists. */
  function Quoted(values: seq<string>): (r: seq<string>)
    ensures |r| == |values|
    ensures forall i :: 0 <= i < |values| ==> r[i] == "\"" + values[i] + "\""
  {
    seq(|values|, i requires 0 <= i < |values| => "\"" + values[i] + "\"")
  }

  /** `parseToolFloat`: `parseFloat` of entry `tool - 1` of the
      `,`-separated list (`parseFloat(undefined)` reads the text
      "undefined"), then `validateNumber`. */
  function ToolFloat(key: string, raw: string, tool: Option<JsNumber>, nt: NumberText): (r: Result<Parsed, Thrown>)
    ensures tool.None? ==> r == Success((None, [ExtruderMissing(key, raw)]))
    ensures r.Failure? <==> tool.Some? && Less(Num(|Split(raw, ',')| as real), tool.value)
    ensures r.Failure? ==> r.error == NotEnoughToolEntries(key, raw, tool.value)
    ensures r.Success? && tool.Some? ==>
      var n := nt.parseFloat(ToolEntry(Split(raw, ','), tool.value).GetOr(UndefinedText));
      r.value == (Some(NumberValue(n)), ValidateNumber(key, raw, n))
  {
    match tool
    case None => Success((None, [ExtruderMissing(key, raw)]))
    case Some(t) =>
      var parts := Split(raw, ',');
      if Less(Num(|parts| as real), t) then Failure(NotEnoughToolEntries(key, raw, t))
      else
        var n := nt.parseFloat(ToolEntry(parts, t).GetOr(UndefinedText));
        Success((Some(NumberValue(n)), ValidateNumber(key, raw, n)))
  }

  /** `parseBedShape`: four corners starting at `0x0` give a rectangle
      whose size is the third corner; anything else is an error. */
  function BedShapeOf(raw: string, nt: NumberText): (r: Parsed)
    ensures |Split(raw, ',')| != 4 ==> r == (None, [RoundBed])
    ensures |Split(raw, ',')| == 4 && Split(raw, ',')[0] != "0x0" ==> r == (None, [NonZeroOrigin])
    ensures |Split(raw, ',')| == 4 && Split(raw, ',')[0] == "0x0" ==>
      r.0.Some? && r.0.value.BedValue? && r.0.value.bed.shape == Rectangular &&
      r.0.value.bed.x == nt.parseInt(Split(Split(raw, ',')[2], 'x')[0]) &&
      |r.1| <= 2 && (r.1 == [] <==> IsFinite(r.0.value.bed.x) && IsFinite(r.0.value.bed.y))
  {
    var parts := Split(raw, ',');
    if |parts| == 4 then
      if parts[0] != "0x0" then (None, [NonZeroOrigin])
      else
        var bedMax := Split(parts[2], 'x');
        var x := nt.parseInt(bedMax[0]);
        var y := nt.parseInt(if |bedMax| > 1 then bedMax[1] else UndefinedText);
        (Some(BedValue(BedShape(Rectangular, x, y))), ValidateRaw(x) + ValidateRaw(y))
    else (None, [RoundBed])
  }

  /** Runs the parser of kind `p` on `raw`. */
  function Parse(p: ParserKind, key: string, raw: string, tool: Option<JsNumber>, nt: NumberText): Result<Parsed, Thrown> {
    match p
    case ParseString => Success((Some(TextValue(raw)), []))
    case ParseToolString => ToolString(key, raw, tool)
    case ParseSingleInt =>
      var n := nt.parseInt(raw);
      Success((Some(NumberValue(n)), ValidateNumber(key, raw, n)))
    case ParseSingleFloat =>
      var n := nt.parseFloat(raw);
      Success((Some(NumberValue(n)), ValidateNumber(key, raw, n)))
    case ParseToolFloat => ToolFloat(key, raw, tool, nt)
    case ParseBedShape => Success(BedShapeOf(raw, nt))
  }

  /** A rectangular bed takes both sides from its third corner, `wxh`:
      `w` and `h` read by `parseInt` (`h` is the text "undefined" when the
      corner holds no `x`), each validated in turn. */
  lemma BedShapeCorner(raw: string, nt: NumberText)
    requires |Split(raw, ',')| == 4 && Split(raw, ',')[0] == "0x0"
    ensures var bedMax := Split(Split(raw, ',')[2], 'x');
      var x := nt.parseInt(bedMax[0]);
      var y := nt.parseInt(if |bedMax| > 1 then bedMax[1] else UndefinedText);
      BedShapeOf(raw, nt) == (Some(BedValue(BedShape(Rectangular, x, y))), ValidateRaw(x) + ValidateRaw(y))
  {
  }

  /** `'' + value`. */
  function ShowValue(v: Option<Value>, nt: NumberText): string {
    match v
    case None => NullText
    case Some(NumberValue(n)) => nt.show(n)
    case Some(TextValue(s)) => s
    case Some(BedValue(_)) => "[object Object]"
  }

  function ShapeName(k: ShapeKind): string {
    match k
    case Rectangular => "Rectangular"
    case Round => "Round"
  }

  /** The display text the describer of kind `d` gives the value. */
  function Describe(d: DescriberKind, v: Option<Value>, nt: NumberText): Option<string> {
    match d
    case DescribeString => if v.None? then None else Some(ShowValue(v, nt))
    case DescribeNumber => Some(ShowValue(v, nt))
    case DescribePercent => Some(ShowValue(v, nt) + " %")
    case DescribeMms => Some(ShowValue(v, nt) + " mm/s")
    case DescribeMm => Some(ShowValue(v, nt) + " mm")
    case DescribeMmCubed => Some(ShowValue(v, nt) + " mm&sup3;")
    case DescribeMmsSquared => Some(ShowValue(v, nt) + " mm/s&sup2;")
    case DescribeTemp => Some(ShowValue(v, nt) + " &deg;C")
    case DescribeBedShape =>
      // `[value?.shape, ": ", '' + value?.x + "mm x ", '' + value?.y, 'mm'].join('')`:
      // a missing shape joins as "", a missing size shows as "undefined".
      match v
      case Some(BedValue(b)) => Some(ShapeName(b.shape) + ": " + nt.show(b.x) + "mm x " + nt.show(b.y) + "mm")
      case _ => Some(": " + UndefinedText + "mm x " + UndefinedText + "mm")
  }

  /** `#toValue`: the setting for one descriptor. */
  function ToValue(found: map<string, string>, d: Descriptor, tool: Option<JsNumber>, nt: NumberText): (r: Result<SettingValue, Thrown>)
    ensures r.Success? ==> r.value.key == d.key
    ensures d.key !in found ==> r.Success? && r.value.value.None? && r.value.display == Some("")
    ensures d.key !in found ==> r.value.errors == (if d.required then [RequiredMissing] else [])
    ensures d.key in found ==> r.Failure? == Parse(d.parser, d.key, found[d.key], tool, nt).Failure?
    ensures d.key in found && r.Success? ==>
      var parsed := Parse(d.parser, d.key, found[d.key], tool, nt).value;
      r.value.raw == found[d.key] && r.value.value == parsed.0 && r.value.errors == parsed.1 &&
      r.value.display == Describe(d.describer, parsed.0, nt)
  {
    if d.key in found then
      var raw := found[d.key];
      var parsed :- Parse(d.parser, d.key, raw, tool, nt);
      Success(SettingValue(d.key, raw, parsed.0, Describe(d.describer, parsed.0, nt), parsed.1))
    else if d.required then Success(SettingValue(d.key, "", None, Some(""), [RequiredMissing]))
    else Success(SettingValue(d.key, "", None, Some(""), []))
  }

  // The fields of `RequiredSlicerSettings`, numbered in the order the
  // constructor fills them.
  const PerimeterExtruder: nat := 0
  const PrinterModel: nat := 1
  const GcodeFlavor: nat := 2
  const FilamentSettingsId: nat := 3
  const BedShapeField: nat := 4
  const NozzleDiameter: nat := 5
  const BedTemperature: nat := 6
  const ExternalPerimeterExtrusionWidth: nat := 7
  const ExtrusionMultiplier: nat := 8
  const Temperature: nat := 9
  const FirstLayerTemperature: nat := 10
  const FilamentDiameter: nat := 11
  const RetractLift: nat := 12
  const RetractLength: nat := 13
  const RetractRestartExtra: nat := 14
  const RetractSpeed: nat := 15
  const DeretractSpeed: nat := 16
  const FilamentRetractLift: nat := 17
  const FilamentRetractLength: nat := 18
  const FilamentRetractRestartExtra: nat := 19
  const FilamentRetractSpeed: nat := 20
  const FilamentDeretractSpeed: nat := 21
  const InfillAcceleration: nat := 22
  const PerimeterAcceleration: nat := 23
  const ExternalPerimeterAcceleration: nat := 24
  const FirstLayerAcceleration: nat := 25
  const MachineMaxAccelerationExtruding: nat := 26
  const SolidInfillAcceleration: nat := 27
  const TopSolidInfillAcceleration: nat := 28
  const TravelAcceleration: nat := 29
  const DefaultAcceleration: nat := 30
  const PerimeterExtrusionWidth: nat := 31
  const PerimeterSpeed: nat := 32
  const SolidInfillSpeed: nat := 33
  const TopSolidInfillSpeed: nat := 34
  const TravelSpeed: nat := 35
  const TravelSpeedZ: nat := 36
  const LayerHeight: nat := 37
  const DisableFanFirstLayers: nat := 38
  const FirstLayerSpeed: nat := 39
  const MinFanSpeed: nat := 40
  const InfillSpeed: nat := 41
  const MaxVolumetricSpeed: nat := 42
  const FilamentMaxVolumetricSpeed: nat := 43
  const StartGcode: nat := 44

  /** The number of settings `RequiredSlicerSettings` holds. */
  const FieldCount: nat := 45

  /** `RequiredSettingsDescriptors`: the descriptor of each field, in
      constructor order. The optional `filament_retract_restart_extra`
      field reads the key `retract_restart_extra`, as the original program
      does. */
  function DescriptorOf(field: nat): (d: Descriptor)
    requires field < FieldCount
  {
    if field == 0 then Descriptor("perimeter_extruder", "perimeter_extruder", ParseSingleInt, DescribeNumber, true)
    else if field == 1 then Descriptor("printer_model", "printer_model", ParseString, DescribeString, true)
    else if field == 2 then Descriptor("gcode_flavor", "gcode_flavor", ParseString, DescribeString, true)
    else if field == 3 then Descriptor("filament_settings_id", "filament_settings_id", ParseToolString, DescribeString, true)
    else if field == 4 then Descriptor("bed_shape", "bed_shape", ParseBedShape, DescribeBedShape, true)
    else if field == 5 then Descriptor("nozzle_diameter", "nozzle_diameter", ParseToolFloat, DescribeMm, true)
    else if field == 6 then Descriptor("bed_temperature", "bed_temperature", ParseToolFloat, DescribeTemp, true)
    else if field == 7 then Descriptor("external_perimeter_extrusion_width", "external_perimeter_extrusion_width", ParseSingleFloat, DescribeMm, true)
    else if field == 8 then Descriptor("extrusion_multiplier", "extrusion_multiplier", ParseToolFloat, DescribeNumber, true)
    else if field == 9 then Descriptor("temperature", "temperature", ParseToolFloat, DescribeTemp, true)
    else if field == 10 then Descriptor("first_layer_temperature", "first_layer_temperature", ParseToolFloat, DescribeTemp, true)
    else if field == 11 then Descriptor("filament_diameter", "filament_diameter", ParseToolFloat, DescribeMm, true)
    else if field == 12 then Descriptor("retract_lift", "retract_lift", ParseToolFloat, DescribeMm, true)
    else if field == 13 then Descriptor("retract_length", "retract_length", ParseToolFloat, DescribeMm, true)
    else if field == 14 then Descriptor("retract_restart_extra", "retract_restart_extra", ParseToolFloat, DescribeMm, true)
    else if field == 15 then Descriptor("retract_speed", "retract_speed", ParseToolFloat, DescribeMms, true)
    else if field == 16 then Descriptor("deretract_speed", "deretract_speed", ParseToolFloat, DescribeMms, true)
    else if field == 17 then Descriptor("filament_retract_lift", "filament_retract_lift", ParseToolFloat, DescribeMm, false)
    else if field == 18 then Descriptor("filament_retract_length", "filament_retract_length", ParseToolFloat, DescribeMm, false)
    else if field == 19 then Descriptor("filament_retract_restart_extra", "retract_restart_extra", ParseToolFloat, DescribeMm, false)
    else if field == 20 then Descriptor("filament_retract_speed", "filament_retract_speed", ParseToolFloat, DescribeMms, false)
    else if field == 21 then Descriptor("filament_deretract_speed", "filament_deretract_speed", ParseToolFloat, DescribeMms, false)
    else if field == 22 then Descriptor("infill_acceleration", "infill_acceleration", ParseSingleInt, DescribeMmsSquared, true)
    else if field == 23 then Descriptor("perimeter_acceleration", "perimeter_acceleration", ParseSingleInt, DescribeMmsSquared, true)
    else if field == 24 then Descriptor("external_perimeter_acceleration", "external_perimeter_acceleration", ParseSingleInt, DescribeMmsSquared, true)
    else if field == 25 then Descriptor("first_layer_acceleration", "first_layer_acceleration", ParseSingleInt, DescribeMmsSquared, true)
    else if field == 26 then Descriptor("machine_max_acceleration_extruding", "machine_max_acceleration_extruding", ParseSingleInt, DescribeMmsSquared, true)
    else if field == 27 then Descriptor("solid_infill_acceleration", "solid_infill_acceleration", ParseSingleInt, DescribeMmsSquared, true)
    else if field == 28 then Descriptor("top_solid_infill_acceleration", "top_solid_infill_acceleration", ParseSingleInt, DescribeMmsSquared, true)
    else if field == 29 then Descriptor("travel_acceleration", "travel_acceleration", ParseSingleInt, DescribeMmsSquared, true)
    else if field == 30 then Descriptor("default_acceleration", "default_acceleration", ParseSingleInt, DescribeMmsSquared, true)
    else if field == 31 then Descriptor("perimeter_extrusion_width", "perimeter_extrusion_width", ParseSingleFloat, DescribeMm, true)
    else if field == 32 then Descriptor("perimeter_speed", "perimeter_speed", ParseSingleInt, DescribeMms, true)
    else if field == 33 then Descriptor("solid_infill_speed", "solid_infill_speed", ParseSingleFloat, DescribeMms, true)
    else if field == 34 then Descriptor("top_solid_infill_speed", "top_solid_infill_speed", ParseSingleFloat, DescribeMms, true)
    else if field == 35 then Descriptor("travel_speed", "travel_speed", ParseSingleInt, DescribeMms, true)
    else if field == 36 then Descriptor("travel_speed_z", "travel_speed_z", ParseSingleInt, DescribeMms, true)
    else if field == 37 then Descriptor("layer_height", "layer_height", ParseSingleFloat, DescribeMm, true)
    else if field == 38 then Descriptor("disable_fan_first_layers", "disable_fan_first_layers", ParseToolFloat, DescribeNumber, true)
    else if field == 39 then Descriptor("first_layer_speed", "first_layer_speed", ParseSingleFloat, DescribeMms, true)
    else if field == 40 then Descriptor("min_fan_speed", "min_fan_speed", ParseToolFloat, DescribePercent, true)
    else if field == 41 then Descriptor("infill_speed", "infill_speed", ParseSingleFloat, DescribeMms, true)
    else if field == 42 then Descriptor("max_volumetric_speed", "max_volumetric_speed", ParseSingleFloat, DescribeMmCubed, true)
    else if field == 43 then Descriptor("filament_max_volumetric_speed", "filament_max_volumetric_speed", ParseSingleFloat, DescribeMmCubed, false)
    else
    Descriptor("start_gcode", "start_gcode", ParseString, DescribeString, true)
  }


  /** `RequiredSlicerSettings`: the settings in catalogue order
      (`allSettings`), and the aggregated flags and errors. */
  datatype Required = Required(
    settings: seq<SettingValue>, hasAllSettings: bool,
    errors: seq<SettingError>, errorCount: nat, hasErrors: bool)

  /** The settings a file may leave out: the five filament retraction
      overrides and the filament's volumetric limit. */
  const OptionalFields: set<nat> := {
    FilamentRetractLift, FilamentRetractLength, FilamentRetractRestartExtra,
    FilamentRetractSpeed, FilamentDeretractSpeed, FilamentMaxVolumetricSpeed}

  /** All descriptors, in constructor order. */
  function Catalogue(): (ds: seq<Descriptor>)
    ensures |ds| == FieldCount
    ensures forall i :: 0 <= i < FieldCount ==> ds[i] == DescriptorOf(i)
  {
    seq(FieldCount, i requires 0 <= i < FieldCount => DescriptorOf(i))
  }

  /** Every setting but the optional ones is required, and every setting
      reads the key of its own name except the restart-extra override,
      which reads the printer's `retract_restart_extra`. */
  lemma CatalogueFlags(i: nat)
    requires i < FieldCount
    ensures Catalogue()[i].required <==> i !in OptionalFields
    ensures Catalogue()[i].key == Catalogue()[i].field <==> i != FilamentRetractRestartExtra
    ensures i == FilamentRetractRestartExtra ==> Catalogue()[i].key == Catalogue()[RetractRestartExtra].key
  {
  }

  /** The settings of the descriptors of `ds` from index `from` on, all
      parsed with the same tool number; the first parser that throws
      aborts. */
  function ToValuesFrom(found: map<string, string>, ds: seq<Descriptor>, from: nat, tool: Option<JsNumber>, nt: NumberText)
    : (r: Result<seq<SettingValue>, Thrown>)
    requires from <= |ds|
    ensures r.Success? <==> forall i :: from <= i < |ds| ==> ToValue(found, ds[i], tool, nt).Success?
    ensures r.Success? ==> |r.value| == |ds| - from
    ensures r.Success? ==> forall i :: from <= i < |ds| ==> ToValue(found, ds[i], tool, nt) == Success(r.value[i - from])
    decreases |ds| - from
  {
    if from == |ds| then Success([])
    else
      var v :- ToValue(found, ds[from], tool, nt);
      var rest :- ToValuesFrom(found, ds, from + 1, tool, nt);
      Success([v] + rest)
  }

  /** The errors of all settings, in order (`this.#allErrors` flattened). */
  function AllErrors(vs: seq<SettingValue>): seq<SettingError> {
    if |vs| == 0 then [] else vs[0].errors + AllErrors(vs[1..])
  }

  /** The tool number later settings are parsed with:
      `this?.perimeter_extruder?.value`. */
  function ToolOf(v: SettingValue): (tool: Option<JsNumber>)
    ensures tool.Some? <==> v.value.Some? && v.value.value.NumberValue?
  {
    match v.value
    case Some(NumberValue(n)) => Some(n)
    case _ => None
  }

  /** Every required setting's key was found. */
  predicate AllRequiredFound(found: map<string, string>) {
    forall i :: 0 <= i < FieldCount && DescriptorOf(i).required ==> DescriptorOf(i).key in found
  }

  /** The constructor of `RequiredSlicerSettings`: `perimeter_extruder`
      first, without a tool number, then every other setting with the tool
      number it yields. */
  function Build(found: map<string, string>, nt: NumberText): (r: Result<Required, Thrown>)
    ensures r.Success? ==> |r.value.settings| == FieldCount
    ensures r.Success? ==> r.value.settings[PerimeterExtruder] == ToValue(found, DescriptorOf(0), None, nt).value
    ensures r.Success? ==> forall i :: 1 <= i < FieldCount ==>
      ToValue(found, DescriptorOf(i), ToolOf(r.value.settings[PerimeterExtruder]), nt) == Success(r.value.settings[i])
    ensures r.Success? ==> r.value.hasAllSettings == AllRequiredFound(found)
    ensures r.Success? ==> r.value.errors == AllErrors(r.value.settings)
    ensures r.Success? ==> r.value.errorCount == |r.value.errors|
    ensures r.Success? ==> (r.value.hasErrors <==> r.value.errorCount > 0)
  {
    var first :- ToValue(found, Catalogue()[0], None, nt);
    var rest :- ToValuesFrom(found, Catalogue(), 1, ToolOf(first), nt);
    var settings := [first] + rest;
    var errors := AllErrors(settings);
    Success(Required(settings, AllRequiredFound(found), errors, |errors|, |errors| > 0))
  }

  /** The errors of a concatenation are the errors of its parts. */
  lemma {:induction false} AllErrorsAppend(a: seq<SettingValue>, b: seq<SettingValue>)
    ensures AllErrors(a + b) == AllErrors(a) + AllErrors(b)
  {
    if |a| == 0 {
      assert a + b == b;
    } else {
      assert (a + b)[1..] == a[1..] + b;
      AllErrorsAppend(a[1..], b);
    }
  }

  /** The error list holds each setting's errors in place. */
  lemma {:induction false} AllErrorsAround(vs: seq<SettingValue>, i: nat)
    requires i < |vs|
    ensures AllErrors(vs) == AllErrors(vs[..i]) + vs[i].errors + AllErrors(vs[i + 1..])
  {
    if i == 0 {
      assert vs[..0] == [];
    } else {
      var tail := vs[1..];
      AllErrorsAround(tail, i - 1);
      assert tail[..i - 1] == vs[..i][1..];
      assert tail[i..] == vs[i + 1..];
      assert tail[i - 1] == vs[i];
    }
  }

  /** There are no errors at all exactly when no setting has one. */
  lemma {:induction false} AllErrorsEmpty(vs: seq<SettingValue>)
    ensures AllErrors(vs) == [] <==> forall i :: 0 <= i < |vs| ==> vs[i].errors == []
  {
    if |vs| > 0 {
      AllErrorsEmpty(vs[1..]);
      assert forall i :: 1 <= i < |vs| ==> vs[i] == vs[1..][i - 1];
    }
  }

  /** `hasErrors` holds exactly when some setting recorded an error. */
  lemma HasErrorsIffSomeSettingErrs(found: map<string, string>, nt: NumberText)
    requires Build(found, nt).Success?
    ensures var r := Build(found, nt).value;
      r.hasErrors <==> exists i :: 0 <= i < |r.settings| && r.settings[i].errors != []
  {
    AllErrorsEmpty(Build(found, nt).value.settings);
  }

  /** The setting of catalogue entry `i` is `ToValue` of its descriptor,
      with the tool number the extruder setting yields. */
  lemma SettingOf(found: map<string, string>, nt: NumberText, i: nat)
    requires Build(found, nt).Success? && i < FieldCount
    ensures var r := Build(found, nt).value;
      ToValue(found, DescriptorOf(i), if i == 0 then None else ToolOf(r.settings[PerimeterExtruder]), nt)
        == Success(r.settings[i])
  {
  }

  /** A missing required setting reads as `null`, shows as "", records
      "Required setting not found", and makes the whole set erroneous and
      incomplete. */
  lemma MissingRequiredSetting(found: map<string, string>, nt: NumberText, i: nat)
    requires Build(found, nt).Success? && i < FieldCount
    requires DescriptorOf(i).required && DescriptorOf(i).key !in found
    ensures var r := Build(found, nt).value;
      && r.settings[i] == SettingValue(DescriptorOf(i).key, "", None, Some(""), [RequiredMissing])
      && r.hasErrors && !r.hasAllSettings
  {
    var r := Build(found, nt).value;
    SettingOf(found, nt, i);
    AllErrorsAround(r.settings, i);
  }

  /** A missing optional setting reads as `null` and records no error. */
  lemma MissingOptionalSetting(found: map<string, string>, nt: NumberText, i: nat)
    requires Build(found, nt).Success? && i < FieldCount
    requires !DescriptorOf(i).required && DescriptorOf(i).key !in found
    ensures var r := Build(found, nt).value;
      r.settings[i] == SettingValue(DescriptorOf(i).key, "", None, Some(""), [])
  {
    SettingOf(found, nt, i);
  }

  /** Without a tool number no parser throws. */
  lemma ParseWithoutTool(p: ParserKind, key: string, raw: string, nt: NumberText)
    ensures Parse(p, key, raw, None, nt).Success?
  {
  }

  /** Without `perimeter_extruder` the settings are always built, and every
      per-tool setting that is present records the missing extruder
      instead of a value. */
  lemma BuildWithoutExtruder(found: map<string, string>, nt: NumberText)
    requires "perimeter_extruder" !in found
    ensures Build(found, nt).Success?
    ensures var r := Build(found, nt).value;
      forall i ::
        (1 <= i < FieldCount && DescriptorOf(i).key in found &&
         DescriptorOf(i).parser in {ParseToolString, ParseToolFloat}) ==>
          r.settings[i].value.None? && r.settings[i].errors == [ExtruderMissing(DescriptorOf(i).key, found[DescriptorOf(i).key])]
  {
    var ds := Catalogue();
    var first := ToValue(found, ds[0], None, nt);
    assert ds[0].key == "perimeter_extruder";
    assert ToolOf(first.value) == None;
    forall i | 1 <= i < FieldCount
      ensures ToValue(found, ds[i], None, nt).Success?
    {
      ToValueWithoutTool(found, ds[i], nt);
    }
    assert ToValuesFrom(found, ds, 1, None, nt).Success?;
    var r := Build(found, nt).value;
    forall i | 1 <= i < FieldCount && DescriptorOf(i).key in found && DescriptorOf(i).parser in {ParseToolString, ParseToolFloat}
      ensures r.settings[i].value.None? && r.settings[i].errors == [ExtruderMissing(DescriptorOf(i).key, found[DescriptorOf(i).key])]
    {
      ToValueWithoutTool(found, ds[i], nt);
    }
  }

  /** Without a tool number every setting is read, and a per-tool setting
      that is present records the missing extruder instead of a value. */
  lemma ToValueWithoutTool(found: map<string, string>, d: Descriptor, nt: NumberText)
    ensures ToValue(found, d, None, nt).Success?
    ensures d.key in found && d.parser in {ParseToolString, ParseToolFloat} ==>
      ToValue(found, d, None, nt).value.value.None? &&
      ToValue(found, d, None, nt).value.errors == [ExtruderMissing(d.key, found[d.key])]
  {
    if d.key in found {
      ParseWithoutTool(d.parser, d.key, found[d.key], nt);
    }
  }

  /** Only a per-tool setting that is present can make the construction
      throw. */
  lemma BuildThrowsOnlyOnToolLists(found: map<string, string>, nt: NumberText)
    requires Build(found, nt).Failure?
    ensures exists i ::
      && 1 <= i < FieldCount && DescriptorOf(i).key in found
      && DescriptorOf(i).parser in {ParseToolString, ParseToolFloat}
  {
    var ds := Catalogue();
    ToValueWithoutTool(found, ds[0], nt);
    var tool := ToolOf(ToValue(found, ds[0], None, nt).value);
    assert !ToValuesFrom(found, ds, 1, tool, nt).Success?;
    var k :| 1 <= k < FieldCount && !ToValue(found, ds[k], tool, nt).Success?;
    ToValueThrowsOnlyOnToolLists(found, ds[k], tool, nt);
    assert ds[k] == DescriptorOf(k);
  }

  /** Reading one setting throws only for a per-tool setting that is
      present. */
  lemma ToValueThrowsOnlyOnToolLists(found: map<string, string>, d: Descriptor, tool: Option<JsNumber>, nt: NumberText)
    ensures ToValue(found, d, tool, nt).Failure? ==> d.key in found && d.parser in {ParseToolString, ParseToolFloat}
  {
  }

  /** "42.42,nil" has two comma-separated entries. */
  lemma SplitExample()
    ensures Split("42.42,nil", ',') == ["42.42", "nil"]
  {
    var raw := "42.42,nil";
    assert Split(raw, ',') == [raw[..5]] + Split(raw[6..], ',') by {
      assert forall j :: 0 <= j < 5 ==> raw[j] != ',';
      SplitAt(raw, ',', 5);
    }
    assert Split("nil", ',') == ["nil"] by {
      SplitAbsent("nil", ',');
    }
    assert raw[..5] == "42.42" && raw[6..] == "nil";
  }

  /** With tool 1, "42.42,nil" reads as the number 42.42 with no error
      and displays in millimetres. */
  lemma ToolFloatFirstEntry(nt: NumberText)
    requires nt.parseFloat("42.42") == Num(42.42)
    ensures ToValue(map["nozzle_diameter" := "42.42,nil"], DescriptorOf(NozzleDiameter), Some(Num(1.0)), nt)
      == Success(SettingValue("nozzle_diameter", "42.42,nil", Some(NumberValue(Num(42.42))),
                              Some(nt.show(Num(42.42)) + " mm"), []))
  {
    NozzleDescriptor();
    SplitExample();
    assert ToolEntry(["42.42", "nil"], Num(1.0)) == Some("42.42");
  }

  /** With tool 2, "42.42,nil" reads "nil", which is not a number. */
  lemma ToolFloatSecondEntry(nt: NumberText)
    requires nt.parseFloat("nil") == NaN
    ensures ToValue(map["nozzle_diameter" := "42.42,nil"], DescriptorOf(NozzleDiameter), Some(Num(2.0)), nt)
      == Success(SettingValue("nozzle_diameter", "42.42,nil", Some(NumberValue(NaN)),
                              Some(nt.show(NaN) + " mm"), [NotANumber("nozzle_diameter", "42.42,nil")]))
  {
    NozzleDescriptor();
    SplitExample();
    assert ToolEntry(["42.42", "nil"], Num(2.0)) == Some("nil");
  }

  /** With tool 3, "42.42,nil" has too few entries and the construction
      throws. */
  lemma ToolFloatPastEnd(nt: NumberText)
    ensures ToValue(map["nozzle_diameter" := "42.42,nil"], DescriptorOf(NozzleDiameter), Some(Num(3.0)), nt)
      == Failure(NotEnoughToolEntries("nozzle_diameter", "42.42,nil", Num(3.0)))
  {
    NozzleDescriptor();
    SplitExample();
    var found := map["nozzle_diameter" := "42.42,nil"];
    var d := DescriptorOf(NozzleDiameter);
    assert d.key in found && found[d.key] == "42.42,nil";
    assert Parse(d.parser, d.key, found[d.key], Some(Num(3.0)), nt)
      == Failure(NotEnoughToolEntries("nozzle_diameter", "42.42,nil", Num(3.0)));
  }

  lemma NozzleDescriptor()
    ensures DescriptorOf(NozzleDiameter) == Descriptor("nozzle_diameter", "nozzle_diameter", ParseToolFloat, DescribeMm, true)
  {
  }
}
