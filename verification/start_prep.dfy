/** The earlier start-block preparation (src/lib/StartGcodePrep.ts): the
    hot-end temperature is rewritten in the last `M109` line or, without
    one, a wait line is appended; klipper printers also get a
    square-corner-velocity override. */
module StartPrep {
  import opened Wrappers
  import opened Text
  import opened Numbers
  import TempCommand

  /** What the preparation throws: `toValue()` of a null setting. */
  datatype PrepError = NullSetting(key: string)

  /** `setFilamentTemperature`: the last `M109` line at index 1 or later
      gets the new temperature and the result flag is true; without such
      a line `M109 T<toolIndex> S<temp>` is appended and the flag is
      false. */
  function SetFilamentTemperature(lines: seq<string>, temp: JsNumber, toolIndex: JsNumber, nt: NumberText)
    : (r: (seq<string>, bool))
    ensures r.1 <==> exists j :: 1 <= j < |lines| && TempCommand.Matches(lines[j])
    ensures !r.1 ==> r.0 == lines + [TempCommand.WaitLine(nt.show(toolIndex), nt.show(temp))]
    ensures r.1 ==> |r.0| == |lines|
    ensures r.1 ==> exists i ::
      && 1 <= i < |lines| && TempCommand.Matches(lines[i])
      && r.0[i] == TempCommand.Rewrite(lines[i], nt.show(temp))
      && (forall j :: i < j < |lines| ==> !TempCommand.Matches(lines[j]))
      && (forall j :: 0 <= j < |lines| && j != i ==> r.0[j] == lines[j])
  {
    match TempCommand.SetLastTemperature(lines, nt.show(temp))
    case Some(updated) =>
      var i := TempCommand.LastMatchingLine(lines).value;
      assert updated[i] == TempCommand.Rewrite(lines[i], nt.show(temp));
      (updated, true)
    case None => (lines + [TempCommand.WaitLine(nt.show(toolIndex), nt.show(temp))], false)
  }

  /** A temperature text the expression's `\d{2,3}` group can hold. */
  predicate IsTemperatureText(s: string) {
    2 <= |s| <= 3 && forall i :: 0 <= i < |s| ==> TempCommand.IsDigit(s[i])
  }

  /** A tool text that keeps the wait line on one line. */
  predicate IsToolText(s: string) {
    forall i :: 0 <= i < |s| ==> !IsLineTerminator(s[i])
  }

  /** An appended wait line is found by the next call, which then rewrites
      it in place: the fallback leaves a line the rewrite recognises. */
  lemma AppendedLineIsRewrittenNext(lines: seq<string>, temp: JsNumber, temp': JsNumber, toolIndex: JsNumber, nt: NumberText)
    requires |lines| >= 1
    requires IsToolText(nt.show(toolIndex)) && IsTemperatureText(nt.show(temp))
    requires !SetFilamentTemperature(lines, temp, toolIndex, nt).1
    ensures var once := SetFilamentTemperature(lines, temp, toolIndex, nt).0;
      SetFilamentTemperature(once, temp', toolIndex, nt)
        == (lines + [TempCommand.WaitLine(nt.show(toolIndex), nt.show(temp'))], true)
  {
    var tool, t, t' := nt.show(toolIndex), nt.show(temp), nt.show(temp');
    var w, w' := TempCommand.WaitLine(tool, t), TempCommand.WaitLine(tool, t');
    var once := SetFilamentTemperature(lines, temp, toolIndex, nt).0;
    var n := |lines|;
    assert once == lines + [w];
    assert TempCommand.Matches(w) && TempCommand.Rewrite(w, t') == w' by {
      TempCommand.WaitLineRewrite(tool, t, t');
    }
    TempCommand.LastMatchIsAppended(lines, w);
    assert TempCommand.SetLastTemperature(once, t') == Some(lines + [w']) by {
      assert once[n := w'] == lines + [w'];
    }
  }

  const ScvLine := "SET_VELOCITY_LIMIT SQUARE_CORNER_VELOCITY=1"

  /** `addKlipperScvOverride`: one more line, the velocity override. */
  function AddKlipperScvOverride(lines: seq<string>): (r: seq<string>)
    ensures |r| == |lines| + 1 && r[..|lines|] == lines && r[|lines|] == ScvLine
  {
    lines + [ScvLine]
  }

  /** `prepareStartGcode`: with tool index `perimeter_extruder - 1`, the
      temperature step runs only when the first-layer temperature differs
      from the test temperature; klipper then gets the velocity override.
      `None` stands for a null setting. */
  function PrepareStartGcode(lines: seq<string>, perimeterExtruder: Option<JsNumber>, firstLayerTemperature: Option<JsNumber>,
                             gcodeFlavor: Option<string>, filamentTemp: JsNumber, nt: NumberText)
    : (r: Result<seq<string>, PrepError>)
    ensures perimeterExtruder.None? ==> r == Failure(NullSetting("perimeter_extruder"))
    ensures perimeterExtruder.Some? && firstLayerTemperature.None? ==> r == Failure(NullSetting("first_layer_temperature"))
    ensures perimeterExtruder.Some? && firstLayerTemperature.Some? && gcodeFlavor.None? ==> r == Failure(NullSetting("gcode_flavor"))
    ensures r.Success? <==> perimeterExtruder.Some? && firstLayerTemperature.Some? && gcodeFlavor.Some?
    ensures r.Success? ==>
      var k := if gcodeFlavor == Some("klipper") then 1 else 0;
      var heated := |r.value| - k;
      && |r.value| >= k
      && (k == 1 ==> r.value[heated] == ScvLine)
      && (StrictEquals(firstLayerTemperature.value, filamentTemp) ==> r.value[..heated] == lines)
      && (!StrictEquals(firstLayerTemperature.value, filamentTemp) ==>
            r.value[..heated] == SetFilamentTemperature(lines, filamentTemp, Sub(perimeterExtruder.value, Num(1.0)), nt).0)
  {
    var extruder :- perimeterExtruder.ToResult(NullSetting("perimeter_extruder"));
    var toolIndex := Sub(extruder, Num(1.0));
    var firstLayerTemp :- firstLayerTemperature.ToResult(NullSetting("first_layer_temperature"));
    var heated :=
      if !StrictEquals(firstLayerTemp, filamentTemp)
      then SetFilamentTemperature(lines, filamentTemp, toolIndex, nt).0
      else lines;
    var flavour :- gcodeFlavor.ToResult(NullSetting("gcode_flavor"));
    if flavour == "klipper" then Success(AddKlipperScvOverride(heated)) else Success(heated)
  }

  /** The preparation grows the block by at most two lines, one appended
      wait line and one velocity override; without a temperature line to
      rewrite, the old lines stay in front unchanged. */
  lemma PrepareGrowsByAtMostTwo(lines: seq<string>, perimeterExtruder: Option<JsNumber>, firstLayerTemperature: Option<JsNumber>,
                                gcodeFlavor: Option<string>, filamentTemp: JsNumber, nt: NumberText)
    requires PrepareStartGcode(lines, perimeterExtruder, firstLayerTemperature, gcodeFlavor, filamentTemp, nt).Success?
    ensures var r := PrepareStartGcode(lines, perimeterExtruder, firstLayerTemperature, gcodeFlavor, filamentTemp, nt).value;
      |lines| <= |r| <= |lines| + 2
    ensures var r := PrepareStartGcode(lines, perimeterExtruder, firstLayerTemperature, gcodeFlavor, filamentTemp, nt).value;
      (forall j :: 1 <= j < |lines| ==> !TempCommand.Matches(lines[j])) ==> r[..|lines|] == lines
  {
  }
}
