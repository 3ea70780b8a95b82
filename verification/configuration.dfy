/** The test configuration derived from the slicer settings
    (my-svelte-ts-project/src/lib/TestPatternConfiguration.ts): which
    pressure-advance command the firmware understands, which of several
    settings supplies a value, and the fan and speed rules. Each setting
    arrives as its key, its value (`None` for null) and its display text;
    reading a null setting's value throws, as `toValue()` does. */
module Configuration {
  import opened Wrappers
  import opened Text
  import opened Numbers
  import Settings

  /** A slicer setting as the configuration reads it. */
  datatype Setting<T> = Setting(key: string, value: Option<T>, display: Option<string>)

  /** What building the configuration throws. */
  datatype ConfigError =
    | NullSetting(key: string)
    | AllValuesNull
    | NoVolumetricFlow
    | UnsupportedFirmware

  function Message(e: ConfigError): string {
    match e
    case NullSetting(key) => "SettingValue with null value was coerced! (key: " + key + ")"
    case AllValuesNull => "No max Value found, all values are null!"
    case NoVolumetricFlow => "No Volumetric Flow Rate setting was found."
    case UnsupportedFirmware => "Sorry, your firmware type is not supported yet"
  }

  /** `setting.toValue()`. */
  function ToValue<T>(s: Setting<T>): (r: Result<T, ConfigError>)
    ensures r.Success? <==> s.value.Some?
    ensures r.Success? ==> r.value == s.value.value
    ensures r.Failure? ==> r.error == NullSetting(s.key)
  {
    s.value.ToResult(NullSetting(s.key))
  }

  /** A configuration value with its display text (the explanation shown
      beside it is not modelled). */
  datatype ExplainedValue<T> = ExplainedValue(name: string, value: T, display: Option<string>)

  /** `e` is the value `simpleExplainedValue(name, s)` gives: the
      setting's own value, under `name`, with the setting's display. */
  predicate Explains<T(==)>(e: ExplainedValue<T>, name: string, s: Setting<T>) {
    s.value == Some(e.value) && e.name == name && e.display == s.display
  }

  /** `simpleExplainedValue`: the setting's own value and display text. */
  function Simple<T>(name: string, s: Setting<T>): (r: Result<ExplainedValue<T>, ConfigError>)
    ensures r.Success? <==> s.value.Some?
    ensures r.Success? ==> r.value == ExplainedValue(name, s.value.value, s.display)
    ensures r.Failure? ==> r.error == NullSetting(s.key)
  {
    var v :- ToValue(s);
    Success(ExplainedValue(name, v, s.display))
  }

  // ---------------------------------------------------------------------
  // Pressure-advance command

  /** The command shown to the user, the prefix the test values are
      appended to, and the slicer template for filament settings. */
  datatype PressureAdvanceGCode = PressureAdvanceGCode(displayValue: string, gcodePrefix: string, slicerTemplate: string)

  const KlipperCommand := "PRESSURE_ADVANCE EXTRUDER=extruder"

  /** `klipperGcode`: the extruder is `extruder` for tool 0 and
      `extruder<N>` for a tool index N above 0. */
  function KlipperGcode(toolIndex: JsNumber, nt: NumberText): (g: PressureAdvanceGCode)
    ensures StartsWith(g.gcodePrefix, KlipperCommand)
    ensures Greater(toolIndex, Num(0.0)) ==> g.gcodePrefix == KlipperCommand + nt.show(toolIndex) + " ADVANCE="
    ensures !Greater(toolIndex, Num(0.0)) ==> g.gcodePrefix == KlipperCommand + " ADVANCE="
  {
    var extruder := if Greater(toolIndex, Num(0.0)) then "extruder" + nt.show(toolIndex) else "extruder";
    PressureAdvanceGCode(
      "klipper: PRESSURE_ADVANCE",
      "PRESSURE_ADVANCE EXTRUDER=" + extruder + " ADVANCE=",
      "PRESSURE_ADVANCE EXTRUDER=extruder{if filament_extruder_id > 0}filament_extruder_id{endif} ADVANCE=")
  }

  /** `reprapfirmwareGcode`: `M572 D<toolIndex> S`. */
  function ReprapFirmwareGcode(toolIndex: JsNumber, nt: NumberText): (g: PressureAdvanceGCode)
    ensures g.gcodePrefix == "M572 D" + nt.show(toolIndex) + " S"
  {
    PressureAdvanceGCode("RepRapFirmware: M572", "M572 D" + nt.show(toolIndex) + " S", "M572 D{filament_extruder_id} S")
  }

  /** `prusaIsGcode`: Prusa's input-shaper firmware takes no tool. */
  const PrusaIsGcode := PressureAdvanceGCode("Prusa Input Shaper: M572", "M572 S", "M572 S")

  /** `marlinGcode`: Marlin's linear advance. */
  const MarlinGcode := PressureAdvanceGCode("Marlin Linear Advance: M900", "M900 K", "M900 K")

  /** `flavour.match('marlin|marlin2')`: the flavour mentions `marlin`
      anywhere (`marlin2` contains it). */
  predicate IsMarlinFlavour(flavour: string) {
    Contains(flavour, "marlin")
  }

  /** `XL` and an optional digit, then `IS`, at `i`. */
  predicate XlIsAt(model: string, i: nat) {
    || OccursAt(model, "XLIS", i)
    || (OccursAt(model, "XL", i) && i + 2 < |model| && '0' <= model[i + 2] <= '9' && OccursAt(model, "IS", i + 3))
  }

  /** `printerModel.match(/XL\d?IS|MK4IS|MINIIS/)`: an input-shaper Prusa. */
  predicate IsInputShaperModel(model: string) {
    exists i :: 0 <= i < |model| && (XlIsAt(model, i) || OccursAt(model, "MK4IS", i) || OccursAt(model, "MINIIS", i))
  }

  /** `selectAdvanceGCodePrefix`: klipper and RepRapFirmware by exact
      flavour name, any flavour mentioning marlin by printer model, and a
      throw for everything else. Both settings are read before the
      choice. */
  function SelectAdvanceGCodePrefix(flavor: Setting<string>, model: Setting<string>, toolIndex: JsNumber, nt: NumberText)
    : (r: Result<ExplainedValue<PressureAdvanceGCode>, ConfigError>)
    ensures flavor.value.None? ==> r == Failure(NullSetting(flavor.key))
    ensures flavor.value.Some? && model.value.None? ==> r == Failure(NullSetting(model.key))
    ensures flavor.value.Some? && model.value.Some? ==>
      var f, m := flavor.value.value, model.value.value;
      && (r.Success? <==> f == "klipper" || f == "reprapfirmware" || IsMarlinFlavour(f))
      && (r.Failure? ==> r.error == UnsupportedFirmware)
      && (r.Success? ==> r.value.display == Some(r.value.value.displayValue))
      && (f == "klipper" ==> r.value.value == KlipperGcode(toolIndex, nt))
      && (f == "reprapfirmware" ==> r.value.value == ReprapFirmwareGcode(toolIndex, nt))
      && (f != "klipper" && f != "reprapfirmware" && IsMarlinFlavour(f) ==>
            r.value.value == if IsInputShaperModel(m) then PrusaIsGcode else MarlinGcode)
  {
    var flavour :- ToValue(flavor);
    var printerModel :- ToValue(model);
    var gcode :-
      if flavour == "klipper" then Success(KlipperGcode(toolIndex, nt))
      else if flavour == "reprapfirmware" then Success(ReprapFirmwareGcode(toolIndex, nt))
      else if IsMarlinFlavour(flavour) then Success(if IsInputShaperModel(printerModel) then PrusaIsGcode else MarlinGcode)
      else Failure(UnsupportedFirmware);
    Success(ExplainedValue("Pressure Advance Type", gcode, Some(gcode.displayValue)))
  }

  /** Every command the selection can produce is a pressure-advance
      command: klipper's `PRESSURE_ADVANCE`, `M572` or `M900`. */
  lemma PrefixIsAdvanceCommand(flavor: Setting<string>, model: Setting<string>, toolIndex: JsNumber, nt: NumberText)
    requires SelectAdvanceGCodePrefix(flavor, model, toolIndex, nt).Success?
    ensures var p := SelectAdvanceGCodePrefix(flavor, model, toolIndex, nt).value.value.gcodePrefix;
      StartsWith(p, KlipperCommand) || StartsWith(p, "M572 ") || StartsWith(p, "M900 ")
  {
  }

  /** A Marlin flavour selects by model alone: Prusa's `M572 S` for a
      model naming an input-shaper printer, `M900 K` for any other. */
  lemma MarlinSelectsByModel(f: string, m: string, toolIndex: JsNumber, nt: NumberText)
    requires IsMarlinFlavour(f)
    ensures var r := SelectAdvanceGCodePrefix(Setting("gcode_flavor", Some(f), None),
                                              Setting("printer_model", Some(m), None), toolIndex, nt);
      r.Success? && r.value.value.gcodePrefix == (if IsInputShaperModel(m) then "M572 S" else "M900 K")
  {
    var i := IndexOf(f, "marlin", 0).value;
    assert f[i..i + 6] == "marlin";
    assert f[i] == 'm' && f[i + 1] == 'a' && f[i + 2] == 'r';
    assert f != "klipper" && f != "reprapfirmware";
  }

  /** `MK4IS` is an input-shaper model, so a Marlin MK4IS gets `M572 S`. */
  lemma Mk4IsGetsM572(toolIndex: JsNumber, nt: NumberText)
    ensures var r := SelectAdvanceGCodePrefix(Setting("gcode_flavor", Some("marlin2"), None),
                                              Setting("printer_model", Some("MK4IS"), None), toolIndex, nt);
      r.Success? && r.value.value.gcodePrefix == "M572 S"
  {
    assert OccursAt("marlin2", "marlin", 0);
    assert OccursAt("MK4IS", "MK4IS", 0);
  }

  /** `MK3S` is not, so it keeps `M900 K`. */
  lemma Mk3sGetsM900(toolIndex: JsNumber, nt: NumberText)
    ensures var r := SelectAdvanceGCodePrefix(Setting("gcode_flavor", Some("marlin2"), None),
                                              Setting("printer_model", Some("MK3S"), None), toolIndex, nt);
      r.Success? && r.value.value.gcodePrefix == "M900 K"
  {
    assert OccursAt("marlin2", "marlin", 0);
    forall i | 0 <= i < 4
      ensures !XlIsAt("MK3S", i) && !OccursAt("MK3S", "MK4IS", i) && !OccursAt("MK3S", "MINIIS", i)
    {
      assert "MK3S"[i] != 'X';
    }
  }

  // ---------------------------------------------------------------------
  // Maximum of several settings

  /** The value of a set setting. */
  function ValueAt(values: seq<Setting<JsNumber>>, k: nat): JsNumber
    requires k < |values| && values[k].value.Some?
  {
    values[k].value.value
  }

  /** The best value so far of the scan in `maxExplainedValue`:
      `Number.MIN_VALUE` until a setting has been picked. */
  function BestOf(values: seq<Setting<JsNumber>>, pick: Option<nat>): JsNumber
    requires pick.Some? ==> pick.value < |values| && values[pick.value].value.Some?
  {
    match pick
    case Some(k) => ValueAt(values, k)
    case None => Num(MinValue)
  }

  /** The setting the scan of `maxExplainedValue` has picked after the
      first `n` settings: a set one whose value exceeds both
      `Number.MIN_VALUE` and every earlier pick. It is the first of the
      largest values, and there is none when no set value is above
      `Number.MIN_VALUE`. */
  function MaxIndex(values: seq<Setting<JsNumber>>, n: nat): (p: Option<nat>)
    requires n <= |values|
    ensures p.Some? ==> var k := p.value;
      && k < n && values[k].value.Some?
      && Greater(ValueAt(values, k), Num(MinValue))
      && (forall j :: 0 <= j < n && values[j].value.Some? ==> !Greater(ValueAt(values, j), ValueAt(values, k)))
      && (forall j :: 0 <= j < k && values[j].value.Some? ==> values[j].value.value != ValueAt(values, k))
    ensures p.None? ==> forall j :: 0 <= j < n && values[j].value.Some? ==> !Greater(ValueAt(values, j), Num(MinValue))
  {
    if n == 0 then None
    else
      var p := MaxIndex(values, n - 1);
      var best := BestOf(values, p);
      if values[n - 1].value.Some? && Greater(values[n - 1].value.value, best) then
        MaxStep(values, n, p);
        Some(n - 1)
      else p
  }

  /** The scan's step when setting `n - 1` beats the best so far. */
  lemma MaxStep(values: seq<Setting<JsNumber>>, n: nat, p: Option<nat>)
    requires 0 < n <= |values| && values[n - 1].value.Some?
    requires p.Some? ==> p.value < n - 1 && values[p.value].value.Some? && Greater(ValueAt(values, p.value), Num(MinValue))
    requires forall j :: 0 <= j < n - 1 && values[j].value.Some? ==> !Greater(ValueAt(values, j), BestOf(values, p))
    requires Greater(ValueAt(values, n - 1), BestOf(values, p))
    ensures Greater(ValueAt(values, n - 1), Num(MinValue))
    ensures forall j :: 0 <= j < n && values[j].value.Some? ==> !Greater(ValueAt(values, j), ValueAt(values, n - 1))
    ensures forall j :: 0 <= j < n - 1 && values[j].value.Some? ==> values[j].value.value != ValueAt(values, n - 1)
  {
    var v, best := ValueAt(values, n - 1), BestOf(values, p);
    if p.Some? {
      LessTrans(Num(MinValue), best, v);
    }
    forall j | 0 <= j < n && values[j].value.Some?
      ensures !Greater(ValueAt(values, j), v)
    {
      if j < n - 1 && Greater(ValueAt(values, j), v) {
        LessTrans(best, v, ValueAt(values, j));
      }
    }
  }

  /** `maxExplainedValue`: the first of the largest set values above
      `Number.MIN_VALUE`, with its display text; a throw when there is
      none. */
  function MaxExplainedValue(name: string, values: seq<Setting<JsNumber>>): (r: Result<ExplainedValue<JsNumber>, ConfigError>)
    ensures r.Failure? <==> forall j :: 0 <= j < |values| && values[j].value.Some? ==> !Greater(ValueAt(values, j), Num(MinValue))
    ensures r.Failure? ==> r.error == AllValuesNull
    ensures r.Success? ==> exists k ::
      && 0 <= k < |values| && values[k].value == Some(r.value.value)
      && r.value.display == values[k].display
      && Greater(r.value.value, Num(MinValue))
      && (forall j :: 0 <= j < |values| && values[j].value.Some? ==> !Greater(ValueAt(values, j), r.value.value))
      && (forall j :: 0 <= j < k && values[j].value.Some? ==> values[j].value.value != r.value.value)
  {
    match MaxIndex(values, |values|)
    case Some(k) => Success(ExplainedValue(name, ValueAt(values, k), values[k].display))
    case None => Failure(AllValuesNull)
  }

  /** Null settings are skipped: a null first setting leaves the second
      to decide. */
  lemma NullIsSkipped(name: string, a: Setting<JsNumber>, b: Setting<JsNumber>)
    requires a.value.None? && b.value.Some? && Greater(b.value.value, Num(MinValue))
    ensures MaxExplainedValue(name, [a, b]) == Success(ExplainedValue(name, b.value.value, b.display))
  {
  }

  /** On a tie the earlier setting wins. */
  lemma TieGoesToFirst(name: string, a: Setting<JsNumber>, b: Setting<JsNumber>)
    requires a.value.Some? && a.value == b.value && Greater(a.value.value, Num(MinValue))
    ensures MaxExplainedValue(name, [a, b]) == Success(ExplainedValue(name, a.value.value, a.display))
  {
    assert MaxIndex([a, b], 1) == Some(0);
  }

  // ---------------------------------------------------------------------
  // Sums, speeds and overrides

  /** `0 + v0 + v1 + ...` over the values, in order. */
  function SumOf(vs: seq<JsNumber>): (s: JsNumber)
    ensures (forall i :: 0 <= i < |vs| ==> vs[i].Num?) ==> s.Num?
  {
    if |vs| == 0 then Num(0.0) else Add(SumOf(vs[..|vs| - 1]), vs[|vs| - 1])
  }

  /** The values of settings that are all set. */
  function ValuesOf(values: seq<Setting<JsNumber>>): (vs: seq<JsNumber>)
    requires forall i :: 0 <= i < |values| ==> values[i].value.Some?
    ensures |vs| == |values| && forall i :: 0 <= i < |values| ==> vs[i] == values[i].value.value
  {
    seq(|values|, i requires 0 <= i < |values| => values[i].value.value)
  }

  /** The first setting in the list that is null. */
  function FirstNull(values: seq<Setting<JsNumber>>): (r: Option<nat>)
    ensures r.Some? ==> r.value < |values| && values[r.value].value.None?
    ensures r.Some? ==> forall j :: 0 <= j < r.value ==> values[j].value.Some?
    ensures r.None? ==> forall j :: 0 <= j < |values| ==> values[j].value.Some?
  {
    if |values| == 0 then None
    else if values[0].value.None? then Some(0)
    else match FirstNull(values[1..])
      case Some(k) => Some(k + 1)
      case None => None
  }

  /** `sumExplainedValue`: the sum of the settings' values, displayed with
      its unit; the first null setting throws. */
  function SumExplainedValue(name: string, units: string, values: seq<Setting<JsNumber>>, nt: NumberText)
    : (r: Result<ExplainedValue<JsNumber>, ConfigError>)
    ensures r.Failure? <==> exists j :: 0 <= j < |values| && values[j].value.None?
    ensures r.Failure? ==> r.error == NullSetting(values[FirstNull(values).value].key)
    ensures r.Success? ==> r.value.value == SumOf(ValuesOf(values))
    ensures r.Success? ==> r.value.display == Some(nt.show(r.value.value) + " " + units)
  {
    match FirstNull(values)
    case Some(k) => Failure(NullSetting(values[k].key))
    case None =>
      var sum := SumOf(ValuesOf(values));
      Success(ExplainedValue(name, sum, Some(nt.show(sum) + " " + units)))
  }

  /** Some value is `NaN`. */
  predicate HasNaN(vs: seq<JsNumber>) {
    exists i :: 0 <= i < |vs| && vs[i].NaN?
  }

  /** Some value is the infinity of the given sign. */
  predicate HasInfinity(vs: seq<JsNumber>, negative: bool) {
    exists i :: 0 <= i < |vs| && vs[i] == Infinity(negative)
  }

  /** The finite part of a value. */
  function FinitePart(v: JsNumber): real {
    if v.Num? then v.r else 0.0
  }

  /** The sum of the finite values, from the front: a reference for the
      left-to-right JavaScript sum. */
  function RealSum(vs: seq<JsNumber>): real {
    if |vs| == 0 then 0.0 else FinitePart(vs[0]) + RealSum(vs[1..])
  }

  lemma {:induction false} RealSumLast(vs: seq<JsNumber>)
    requires |vs| > 0
    ensures RealSum(vs) == RealSum(vs[..|vs| - 1]) + FinitePart(vs[|vs| - 1])
    decreases |vs|
  {
    if |vs| > 1 {
      RealSumLast(vs[1..]);
      assert vs[1..][..|vs[1..]| - 1] == vs[..|vs| - 1][1..];
    }
  }

  /** The left-to-right sum `0 + v0 + v1 + ...`: `NaN` when a value is
      `NaN` or both infinities occur; an infinity when only that one
      occurs; otherwise the real sum of the values. */
  lemma {:induction false} SumOfValue(vs: seq<JsNumber>)
    ensures SumOf(vs).NaN? <==> HasNaN(vs) || (HasInfinity(vs, true) && HasInfinity(vs, false))
    ensures SumOf(vs).Infinity? <==> !HasNaN(vs) && HasInfinity(vs, true) != HasInfinity(vs, false)
    ensures SumOf(vs).Infinity? ==> HasInfinity(vs, SumOf(vs).negative)
    ensures SumOf(vs).Num? ==> SumOf(vs) == Num(RealSum(vs))
    decreases |vs|
  {
    if |vs| > 0 {
      var p, x := vs[..|vs| - 1], vs[|vs| - 1];
      SumOfValue(p);
      RealSumLast(vs);
      HasLast(vs);
    }
  }

  /** The occurrences in a non-empty list are those in its prefix and its
      last value. */
  lemma HasLast(vs: seq<JsNumber>)
    requires |vs| > 0
    ensures var p, x := vs[..|vs| - 1], vs[|vs| - 1];
      && (HasNaN(vs) <==> HasNaN(p) || x.NaN?)
      && (HasInfinity(vs, true) <==> HasInfinity(p, true) || x == Infinity(true))
      && (HasInfinity(vs, false) <==> HasInfinity(p, false) || x == Infinity(false))
  {
    var p := vs[..|vs| - 1];
    assert forall i :: 0 <= i < |p| ==> p[i] == vs[i];
  }

  /** Two finite values add up as reals. */
  lemma SumOfTwo(a: real, b: real)
    ensures SumOf([Num(a), Num(b)]) == Num(a + b)
  {
    assert [Num(a), Num(b)][..1] == [Num(a)];
    assert [Num(a)][..0] == [];
    assert SumOf([Num(a)]) == Num(a);
  }

  /** The flow limit `maxVolumetricSpeed` would use: the filament's when it
      is truthy and positive, else the printer's when it is, else none. */
  function FlowRate(printerFlow: JsNumber, filamentFlow: JsNumber): (r: Option<JsNumber>)
    ensures r.Some? ==> Greater(r.value, Num(0.0))
    ensures r.None? <==> !Greater(filamentFlow, Num(0.0)) && !Greater(printerFlow, Num(0.0))
    ensures Greater(filamentFlow, Num(0.0)) ==> r == Some(filamentFlow)
    ensures !Greater(filamentFlow, Num(0.0)) && Greater(printerFlow, Num(0.0)) ==> r == Some(printerFlow)
  {
    if Truthy(filamentFlow) && Greater(filamentFlow, Num(0.0)) then Some(filamentFlow)
    else if Truthy(printerFlow) && Greater(printerFlow, Num(0.0)) then Some(printerFlow)
    else None
  }

  /** The settings `explainMaxSpeed` reads. */
  datatype SpeedSettings = SpeedSettings(
    maxVolumetricSpeed: Setting<JsNumber>,
    filamentMaxVolumetricSpeed: Setting<JsNumber>,
    perimeterExtrusionWidth: Setting<JsNumber>,
    layerHeight: Setting<JsNumber>,
    infillSpeed: Setting<JsNumber>)

  /** `explainMaxSpeed`: the fast test speed is the infill speed, capped
      by the speed at which a perimeter-wide line of one layer height
      reaches the volumetric flow limit. Both flow settings are read
      first, so a null filament limit throws even though it is optional. */
  function ExplainMaxSpeed(s: SpeedSettings, nt: NumberText): (r: Result<ExplainedValue<JsNumber>, ConfigError>)
    ensures s.maxVolumetricSpeed.value.None? ==> r == Failure(NullSetting(s.maxVolumetricSpeed.key))
    ensures s.maxVolumetricSpeed.value.Some? && s.filamentMaxVolumetricSpeed.value.None? ==>
      r == Failure(NullSetting(s.filamentMaxVolumetricSpeed.key))
    ensures s.maxVolumetricSpeed.value.Some? && s.filamentMaxVolumetricSpeed.value.Some? ==>
      var flow := FlowRate(s.maxVolumetricSpeed.value.value, s.filamentMaxVolumetricSpeed.value.value);
      && (flow.None? ==> r == Failure(NoVolumetricFlow))
      && (flow.Some? && s.perimeterExtrusionWidth.value.Some? && s.layerHeight.value.Some? && s.infillSpeed.value.Some? ==>
            && r.Success?
            && r.value.value == Min(Div(flow.value, Mul(s.perimeterExtrusionWidth.value.value, s.layerHeight.value.value)),
                                    s.infillSpeed.value.value))
    ensures r.Success? ==> r.value.display == Some(nt.show(r.value.value) + " mm/s")
  {
    var printerFlow :- ToValue(s.maxVolumetricSpeed);
    var filamentFlow :- ToValue(s.filamentMaxVolumetricSpeed);
    var flowRate :- FlowRate(printerFlow, filamentFlow).ToResult(NoVolumetricFlow);
    var width :- ToValue(s.perimeterExtrusionWidth);
    var layerHeight :- ToValue(s.layerHeight);
    var speedInfill :- ToValue(s.infillSpeed);
    var maxSpeed := Div(flowRate, Mul(width, layerHeight));
    var speedFast := Min(maxSpeed, speedInfill);
    Success(ExplainedValue("Test Fast Extrusion Speed", speedFast, Some(nt.show(speedFast) + " mm/s")))
  }

  /** With finite positive settings the fast speed exceeds neither the
      infill speed nor the flow-limited speed. */
  lemma FastSpeedIsCapped(s: SpeedSettings, nt: NumberText, flow: real, width: real, height: real, infill: real)
    requires s.maxVolumetricSpeed.value.Some? && s.filamentMaxVolumetricSpeed.value == Some(Num(flow))
    requires s.perimeterExtrusionWidth.value == Some(Num(width)) && s.layerHeight.value == Some(Num(height))
    requires s.infillSpeed.value == Some(Num(infill))
    requires flow > 0.0 && width > 0.0 && height > 0.0
    ensures ExplainMaxSpeed(s, nt).Success?
    ensures var v := ExplainMaxSpeed(s, nt).value.value;
      v.Num? && v.r <= infill && v.r <= flow / (width * height)
  {
    assert width * height > 0.0;
  }

  /** `filamentOverrideExplainedValue`: the filament's override when it is
      set, otherwise the printer's setting. */
  function FilamentOverride<T>(name: string, default: Setting<T>, override: Setting<T>): (r: Result<ExplainedValue<T>, ConfigError>)
    ensures override.value.Some? ==> r == Success(ExplainedValue(name, override.value.value, override.display))
    ensures override.value.None? ==> r == Simple(name, default)
  {
    Simple(name, Picked(default, override))
  }

  /** The override when set, else the default: the choice both
      `filamentOverrideExplainedValue` and the restart-extra choice make. */
  function Picked<T>(default: Setting<T>, override: Setting<T>): Setting<T> {
    if override.value.Some? then override else default
  }

  // ---------------------------------------------------------------------
  // The configuration

  /** The settings the configuration reads. */
  datatype SlicerSettings = SlicerSettings(
    printerModel: Setting<string>,
    filamentSettingsId: Setting<string>,
    filamentDiameter: Setting<JsNumber>,
    temperature: Setting<JsNumber>,
    firstLayerTemperature: Setting<JsNumber>,
    nozzleDiameter: Setting<JsNumber>,
    layerHeight: Setting<JsNumber>,
    perimeterExtrusionWidth: Setting<JsNumber>,
    extrusionMultiplier: Setting<JsNumber>,
    retractLift: Setting<JsNumber>,
    travelAcceleration: Setting<JsNumber>,
    perimeterAcceleration: Setting<JsNumber>,
    infillAcceleration: Setting<JsNumber>,
    solidInfillAcceleration: Setting<JsNumber>,
    topSolidInfillAcceleration: Setting<JsNumber>,
    externalPerimeterAcceleration: Setting<JsNumber>,
    firstLayerAcceleration: Setting<JsNumber>,
    firstLayerSpeed: Setting<JsNumber>,
    maxVolumetricSpeed: Setting<JsNumber>,
    filamentMaxVolumetricSpeed: Setting<JsNumber>,
    infillSpeed: Setting<JsNumber>,
    travelSpeed: Setting<JsNumber>,
    travelSpeedZ: Setting<JsNumber>,
    retractLength: Setting<JsNumber>,
    filamentRetractLength: Setting<JsNumber>,
    retractRestartExtra: Setting<JsNumber>,
    filamentRetractRestartExtra: Setting<JsNumber>,
    retractSpeed: Setting<JsNumber>,
    filamentRetractSpeed: Setting<JsNumber>,
    deretractSpeed: Setting<JsNumber>,
    filamentDeretractSpeed: Setting<JsNumber>,
    bedShape: Setting<Settings.BedShape>,
    disableFanFirstLayers: Setting<JsNumber>,
    minFanSpeed: Setting<JsNumber>,
    perimeterExtruder: Setting<JsNumber>,
    gcodeFlavor: Setting<string>)

  /** Printer, filament and extrusion values. */
  datatype Material = Material(
    printer: ExplainedValue<string>,
    filament: ExplainedValue<string>,
    filamentDiameter: ExplainedValue<JsNumber>,
    filamentTemperature: ExplainedValue<JsNumber>,
    nozzleDiameter: ExplainedValue<JsNumber>,
    heightLayer: ExplainedValue<JsNumber>,
    extrusionWidth: ExplainedValue<JsNumber>,
    extrusionMultiplier: ExplainedValue<JsNumber>,
    zHopHeight: ExplainedValue<JsNumber>)

  /** The filament temperature: the larger of the two temperatures. */
  function FilamentTemperature(s: SlicerSettings): (r: Result<ExplainedValue<JsNumber>, ConfigError>)
    ensures r.Success? ==> s.temperature.value == Some(r.value.value) || s.firstLayerTemperature.value == Some(r.value.value)
    ensures r.Success? && s.temperature.value.Some? ==> !Greater(s.temperature.value.value, r.value.value)
    ensures r.Success? && s.firstLayerTemperature.value.Some? ==> !Greater(s.firstLayerTemperature.value.value, r.value.value)
    ensures r.Failure? <==>
      && (s.temperature.value.None? || !Greater(s.temperature.value.value, Num(MinValue)))
      && (s.firstLayerTemperature.value.None? || !Greater(s.firstLayerTemperature.value.value, Num(MinValue)))
  {
    var vs := [s.temperature, s.firstLayerTemperature];
    var r := MaxExplainedValue("Filament Temperature", vs);
    assert vs[0] == s.temperature && vs[1] == s.firstLayerTemperature;
    assert r.Failure? <== (forall j :: 0 <= j < 2 && vs[j].value.Some? ==> !Greater(ValueAt(vs, j), Num(MinValue)));
    r
  }

  /** The first block of the constructor, in its order of reads. */
  function MaterialOf(s: SlicerSettings): (r: Result<Material, ConfigError>)
    ensures r.Success? <==>
      && s.printerModel.value.Some? && s.filamentSettingsId.value.Some? && s.filamentDiameter.value.Some?
      && FilamentTemperature(s).Success?
      && s.nozzleDiameter.value.Some? && s.layerHeight.value.Some? && s.perimeterExtrusionWidth.value.Some?
      && s.extrusionMultiplier.value.Some? && s.retractLift.value.Some?
    ensures r.Success? ==>
      && Explains(r.value.printer, "Printer", s.printerModel)
      && Explains(r.value.filament, "Filament Preset", s.filamentSettingsId)
      && Explains(r.value.filamentDiameter, "Filament Diameter", s.filamentDiameter)
      && FilamentTemperature(s) == Success(r.value.filamentTemperature)
      && Explains(r.value.nozzleDiameter, "Nozzle Diameter", s.nozzleDiameter)
      && Explains(r.value.heightLayer, "Layer Height", s.layerHeight)
      && Explains(r.value.extrusionWidth, "Extrusion Width", s.perimeterExtrusionWidth)
      && Explains(r.value.extrusionMultiplier, "Extrusion Multiplier", s.extrusionMultiplier)
      && Explains(r.value.zHopHeight, "Z-Hop Height", s.retractLift)
    ensures s.printerModel.value.None? ==> r == Failure(NullSetting(s.printerModel.key))
  {
    var printer :- Simple("Printer", s.printerModel);
    var filament :- Simple("Filament Preset", s.filamentSettingsId);
    var diameter :- Simple("Filament Diameter", s.filamentDiameter);
    var temperature :- FilamentTemperature(s);
    var nozzle :- Simple("Nozzle Diameter", s.nozzleDiameter);
    var layer :- Simple("Layer Height", s.layerHeight);
    var width :- Simple("Extrusion Width", s.perimeterExtrusionWidth);
    var multiplier :- Simple("Extrusion Multiplier", s.extrusionMultiplier);
    var zHop :- Simple("Z-Hop Height", s.retractLift);
    Success(Material(printer, filament, diameter, temperature, nozzle, layer, width, multiplier, zHop))
  }

  /** Accelerations and speeds. */
  datatype Motion = Motion(
    travelAcceleration: ExplainedValue<JsNumber>,
    testAcceleration: ExplainedValue<JsNumber>,
    printAcceleration: ExplainedValue<JsNumber>,
    speedPrint: ExplainedValue<JsNumber>,
    speedSlow: ExplainedValue<JsNumber>,
    speedFast: ExplainedValue<JsNumber>,
    speedMove: ExplainedValue<JsNumber>,
    speedMoveZ: ExplainedValue<JsNumber>)

  /** The five accelerations the test acceleration is the largest of. */
  function TestAccelerations(s: SlicerSettings): seq<Setting<JsNumber>> {
    [s.perimeterAcceleration, s.infillAcceleration, s.solidInfillAcceleration,
     s.topSolidInfillAcceleration, s.externalPerimeterAcceleration]
  }

  function SpeedSettingsOf(s: SlicerSettings): SpeedSettings {
    SpeedSettings(s.maxVolumetricSpeed, s.filamentMaxVolumetricSpeed, s.perimeterExtrusionWidth, s.layerHeight, s.infillSpeed)
  }

  /** The second block: the test acceleration is the largest of five, the
      slow test speed is the first-layer speed, the fast one obeys the
      flow limit. */
  function MotionOf(s: SlicerSettings, nt: NumberText): (r: Result<Motion, ConfigError>)
    ensures r.Success? <==>
      && s.travelAcceleration.value.Some?
      && MaxExplainedValue("Test Acceleration", TestAccelerations(s)).Success?
      && s.firstLayerAcceleration.value.Some? && s.firstLayerSpeed.value.Some?
      && ExplainMaxSpeed(SpeedSettingsOf(s), nt).Success?
      && s.travelSpeed.value.Some? && s.travelSpeedZ.value.Some?
    ensures r.Success? ==>
      && Explains(r.value.travelAcceleration, "Travel Acceleration", s.travelAcceleration)
      && MaxExplainedValue("Test Acceleration", TestAccelerations(s)) == Success(r.value.testAcceleration)
      && Explains(r.value.printAcceleration, "Print Acceleration", s.firstLayerAcceleration)
      && Explains(r.value.speedPrint, "Printing Speed", s.firstLayerSpeed)
      && Explains(r.value.speedSlow, "Test Slow Extrusion Speed", s.firstLayerSpeed)
      && ExplainMaxSpeed(SpeedSettingsOf(s), nt) == Success(r.value.speedFast)
      && Explains(r.value.speedMove, "Travel Speed", s.travelSpeed)
      && Explains(r.value.speedMoveZ, "Z Movement Speed", s.travelSpeedZ)
    ensures s.travelAcceleration.value.None? ==> r == Failure(NullSetting(s.travelAcceleration.key))
  {
    var travel :- Simple("Travel Acceleration", s.travelAcceleration);
    var test :- MaxExplainedValue("Test Acceleration", TestAccelerations(s));
    var printAccel :- Simple("Print Acceleration", s.firstLayerAcceleration);
    var speedPrint :- Simple("Printing Speed", s.firstLayerSpeed);
    // the same setting again: it cannot be null here
    var speedSlow := ExplainedValue("Test Slow Extrusion Speed", speedPrint.value, s.firstLayerSpeed.display);
    var speedFast :- ExplainMaxSpeed(SpeedSettingsOf(s), nt);
    var speedMove :- Simple("Travel Speed", s.travelSpeed);
    var speedMoveZ :- Simple("Z Movement Speed", s.travelSpeedZ);
    Success(Motion(travel, test, printAccel, speedPrint, speedSlow, speedFast, speedMove, speedMoveZ))
  }

  /** Retraction lengths and speeds. */
  datatype Retraction = Retraction(
    retractDist: ExplainedValue<JsNumber>,
    deretractDist: ExplainedValue<JsNumber>,
    retractSpeed: ExplainedValue<JsNumber>,
    deretractSpeed: ExplainedValue<JsNumber>)

  /** The third block: each value prefers the filament's override; the
      deretraction length is the chosen retraction length plus the chosen
      restart extra. */
  function RetractionOf(s: SlicerSettings, nt: NumberText): (r: Result<Retraction, ConfigError>)
    ensures r.Success? ==> Picked(s.retractLength, s.filamentRetractLength).value == Some(r.value.retractDist.value)
    ensures r.Success? ==>
      && Picked(s.retractRestartExtra, s.filamentRetractRestartExtra).value.Some?
      && r.value.deretractDist.value
         == SumOf([r.value.retractDist.value, Picked(s.retractRestartExtra, s.filamentRetractRestartExtra).value.value])
    ensures r.Success? ==> Picked(s.retractSpeed, s.filamentRetractSpeed).value == Some(r.value.retractSpeed.value)
    ensures r.Success? ==> Picked(s.deretractSpeed, s.filamentDeretractSpeed).value == Some(r.value.deretractSpeed.value)
    ensures var length, restart := Picked(s.retractLength, s.filamentRetractLength),
                                   Picked(s.retractRestartExtra, s.filamentRetractRestartExtra);
      var speed, despeed := Picked(s.retractSpeed, s.filamentRetractSpeed),
                            Picked(s.deretractSpeed, s.filamentDeretractSpeed);
      && (r.Success? <==> length.value.Some? && restart.value.Some? && speed.value.Some? && despeed.value.Some?)
      && (r.Failure? ==> r.error == NullSetting(if length.value.None? then length.key
                                                else if restart.value.None? then restart.key
                                                else if speed.value.None? then speed.key
                                                else despeed.key))
  {
    var retractDist :- FilamentOverride("Retract Length", s.retractLength, s.filamentRetractLength);
    var restart := Picked(s.retractRestartExtra, s.filamentRetractRestartExtra);
    var parts := [Picked(s.retractLength, s.filamentRetractLength), restart];
    var deretractDist :- SumExplainedValue("Deretraction Length", "mm", parts, nt);
    assert ValuesOf(parts) == [parts[0].value.value, parts[1].value.value];
    var retractSpeed :- FilamentOverride("Retraction Speed", s.retractSpeed, s.filamentRetractSpeed);
    var deretractSpeed :- FilamentOverride("Deretraction Speed", s.deretractSpeed, s.filamentDeretractSpeed);
    Success(Retraction(retractDist, deretractDist, retractSpeed, deretractSpeed))
  }

  /** The bed's outline and size. */
  datatype Bed = Bed(shape: ExplainedValue<Settings.ShapeKind>, x: ExplainedValue<JsNumber>, y: ExplainedValue<JsNumber>)

  function BedOf(s: SlicerSettings, nt: NumberText): (r: Result<Bed, ConfigError>)
    ensures r.Success? <==> s.bedShape.value.Some?
    ensures r.Success? ==> var b := s.bedShape.value.value;
      r.value.shape.value == b.shape && r.value.x.value == b.x && r.value.y.value == b.y
  {
    var b :- ToValue(s.bedShape);
    var name := Settings.ShapeName(b.shape);
    Success(Bed(ExplainedValue("Bed Shape", b.shape, Some(name)),
                ExplainedValue("Bed X Axis Size", b.x, Some(nt.show(b.x) + " mm")),
                ExplainedValue("Bed Y Axis Size", b.y, Some(nt.show(b.y) + " mm"))))
  }

  /** The part-cooling fan: off when the first layers run without fan,
      otherwise at its minimum speed. */
  function FanSpeed(s: SlicerSettings, nt: NumberText): (r: Result<ExplainedValue<JsNumber>, ConfigError>)
    ensures r.Success? <==> s.disableFanFirstLayers.value.Some? && s.minFanSpeed.value.Some?
    ensures r.Success? && Greater(s.disableFanFirstLayers.value.value, Num(0.0)) ==> r.value.value == Num(0.0)
    ensures r.Success? && !Greater(s.disableFanFirstLayers.value.value, Num(0.0)) ==> r.value.value == s.minFanSpeed.value.value
  {
    var fanOffLayer :- ToValue(s.disableFanFirstLayers);
    var minFanSpeed :- ToValue(s.minFanSpeed);
    var fanSpeed := if Greater(fanOffLayer, Num(0.0)) then Num(0.0) else minFanSpeed;
    Success(ExplainedValue("Part Cooling Fan Speed", fanSpeed, Some(nt.show(fanSpeed) + "%")))
  }

  /** `TestPatternConfiguration`: the derived values, the pressure-advance
      test values, and the pattern's fixed geometry. */
  datatype TestPatternConfiguration = TestPatternConfiguration(
    material: Material,
    motion: Motion,
    retraction: Retraction,
    bed: Bed,
    fanSpeed: ExplainedValue<JsNumber>,
    advanceGcodePrefix: ExplainedValue<PressureAdvanceGCode>,
    advanceStep: real,
    advanceLines: seq<real>,
    printDir: real,
    lengthSlow: real,
    lengthFast: real,
    zOffset: real,
    nullCenter: bool)

  /** The tool the pressure-advance command addresses: one less than the
      one-based `perimeter_extruder`. */
  function ToolIndex(s: SlicerSettings): (r: Result<JsNumber, ConfigError>)
    ensures r.Success? <==> s.perimeterExtruder.value.Some?
    ensures r.Success? && s.perimeterExtruder.value.value.Num? ==> r.value == Num(s.perimeterExtruder.value.value.r - 1.0)
    ensures r.Success? && !s.perimeterExtruder.value.value.Num? ==> r.value == s.perimeterExtruder.value.value
  {
    var extruder :- ToValue(s.perimeterExtruder);
    Success(Sub(extruder, Num(1.0)))
  }

  /** The constructor: the blocks above in the source's order, then the
      pressure-advance command for `perimeter_extruder - 1`, then the
      range model's step and test values. The pattern is printed without
      rotation, with 25 mm slow and 100 mm fast segments, around the bed
      centre. */
  function Build(s: SlicerSettings, paStep: real, paLines: seq<real>, nt: NumberText)
    : (r: Result<TestPatternConfiguration, ConfigError>)
    ensures r.Success? ==>
      && MaterialOf(s) == Success(r.value.material)
      && MotionOf(s, nt) == Success(r.value.motion)
      && RetractionOf(s, nt) == Success(r.value.retraction)
      && BedOf(s, nt) == Success(r.value.bed)
      && FanSpeed(s, nt) == Success(r.value.fanSpeed)
      && ToolIndex(s).Success?
      && SelectAdvanceGCodePrefix(s.gcodeFlavor, s.printerModel, ToolIndex(s).value, nt) == Success(r.value.advanceGcodePrefix)
    ensures r.Success? ==> r.value.advanceStep == paStep && r.value.advanceLines == paLines
    ensures r.Success? ==>
      && r.value.printDir == 0.0 && r.value.lengthSlow == 25.0 && r.value.lengthFast == 100.0
      && r.value.zOffset == 0.0 && !r.value.nullCenter
    ensures MaterialOf(s).Failure? ==> r == Failure(MaterialOf(s).error)
  {
    var material :- MaterialOf(s);
    var motion :- MotionOf(s, nt);
    var retraction :- RetractionOf(s, nt);
    var bed :- BedOf(s, nt);
    var fanSpeed :- FanSpeed(s, nt);
    var toolIndex :- ToolIndex(s);
    var prefix :- SelectAdvanceGCodePrefix(s.gcodeFlavor, s.printerModel, toolIndex, nt);
    Success(TestPatternConfiguration(material, motion, retraction, bed, fanSpeed, prefix, paStep, paLines,
                                     0.0, 25.0, 100.0, 0.0, false))
  }

  /** The constructor succeeds exactly when every block, the tool index
      and the pressure-advance command can be read; otherwise it throws
      the error of the first one that cannot, in the source's order. */
  lemma BuildSucceedsIff(s: SlicerSettings, paStep: real, paLines: seq<real>, nt: NumberText)
    ensures Build(s, paStep, paLines, nt).Success? <==>
      && MaterialOf(s).Success? && MotionOf(s, nt).Success? && RetractionOf(s, nt).Success?
      && BedOf(s, nt).Success? && FanSpeed(s, nt).Success? && ToolIndex(s).Success?
      && SelectAdvanceGCodePrefix(s.gcodeFlavor, s.printerModel, ToolIndex(s).value, nt).Success?
  {
  }

  /** When a block cannot be read, the constructor throws that block's
      error, provided every block before it was read. */
  lemma BuildFailsAtFirstBlock(s: SlicerSettings, paStep: real, paLines: seq<real>, nt: NumberText)
    ensures MaterialOf(s).Failure? ==> Build(s, paStep, paLines, nt) == Failure(MaterialOf(s).error)
    ensures MaterialOf(s).Success? && MotionOf(s, nt).Failure? ==>
      Build(s, paStep, paLines, nt) == Failure(MotionOf(s, nt).error)
    ensures MaterialOf(s).Success? && MotionOf(s, nt).Success? && RetractionOf(s, nt).Failure? ==>
      Build(s, paStep, paLines, nt) == Failure(RetractionOf(s, nt).error)
    ensures MaterialOf(s).Success? && MotionOf(s, nt).Success? && RetractionOf(s, nt).Success?
            && BedOf(s, nt).Failure? ==>
      Build(s, paStep, paLines, nt) == Failure(BedOf(s, nt).error)
    ensures MaterialOf(s).Success? && MotionOf(s, nt).Success? && RetractionOf(s, nt).Success?
            && BedOf(s, nt).Success? && FanSpeed(s, nt).Failure? ==>
      Build(s, paStep, paLines, nt) == Failure(FanSpeed(s, nt).error)
    ensures MaterialOf(s).Success? && MotionOf(s, nt).Success? && RetractionOf(s, nt).Success?
            && BedOf(s, nt).Success? && FanSpeed(s, nt).Success? && ToolIndex(s).Failure? ==>
      Build(s, paStep, paLines, nt) == Failure(ToolIndex(s).error)
    ensures MaterialOf(s).Success? && MotionOf(s, nt).Success? && RetractionOf(s, nt).Success?
            && BedOf(s, nt).Success? && FanSpeed(s, nt).Success? && ToolIndex(s).Success?
            && SelectAdvanceGCodePrefix(s.gcodeFlavor, s.printerModel, ToolIndex(s).value, nt).Failure? ==>
      Build(s, paStep, paLines, nt)
        == Failure(SelectAdvanceGCodePrefix(s.gcodeFlavor, s.printerModel, ToolIndex(s).value, nt).error)
  {
  }

  /** A null optional filament flow limit makes the whole configuration
      throw once the earlier blocks have been read. */
  lemma NullFilamentFlowThrows(s: SlicerSettings, paStep: real, paLines: seq<real>, nt: NumberText)
    requires MaterialOf(s).Success?
    requires s.travelAcceleration.value.Some? && s.firstLayerAcceleration.value.Some? && s.firstLayerSpeed.value.Some?
    requires MaxExplainedValue("Test Acceleration", TestAccelerations(s)).Success?
    requires s.maxVolumetricSpeed.value.Some? && s.filamentMaxVolumetricSpeed.value.None?
    ensures Build(s, paStep, paLines, nt) == Failure(NullSetting(s.filamentMaxVolumetricSpeed.key))
  {
  }
}
