/** The start-block preparation of the Svelte application
    (my-svelte-ts-project/src/lib/StartGcodePrep.ts): the temperature of
    the last `M109` line is always rewritten, and a wait line is appended
    when there is none. */
module SvelteStartPrep {
  import opened Wrappers
  import opened Numbers
  import TempCommand
  import StartPrep

  /** `updateLastTemperatureCommand`: true, with the last `M109` line at
      index 1 or later rewritten; false, with the lines unchanged, when no
      such line exists. */
  function UpdateLastTemperatureCommand(lines: seq<string>, temp: JsNumber, nt: NumberText): (r: (seq<string>, bool))
    ensures r.1 <==> exists j :: 1 <= j < |lines| && TempCommand.Matches(lines[j])
    ensures !r.1 ==> r.0 == lines
    ensures |r.0| == |lines|
    ensures r.1 ==> exists i ::
      && 1 <= i < |lines| && TempCommand.Matches(lines[i])
      && r.0[i] == TempCommand.Rewrite(lines[i], nt.show(temp))
      && (forall j :: i < j < |lines| ==> !TempCommand.Matches(lines[j]))
      && (forall j :: 0 <= j < |lines| && j != i ==> r.0[j] == lines[j])
  {
    match TempCommand.SetLastTemperature(lines, nt.show(temp))
    case Some(updated) =>
      var i := TempCommand.LastMatchingLine(lines).value;
      assert updated[i] == TempCommand.Rewrite(lines[i], nt.show(temp));
      (updated, true)
    case None => (lines, false)
  }

  /** `appendM109`: `M109 T<toolIndex> S<temp>` after the last line. */
  function AppendM109(lines: seq<string>, temp: JsNumber, toolIndex: JsNumber, nt: NumberText): (r: seq<string>)
    ensures |r| == |lines| + 1 && r[..|lines|] == lines
    ensures r[|lines|] == TempCommand.WaitLine(nt.show(toolIndex), nt.show(temp))
  {
    lines + [TempCommand.WaitLine(nt.show(toolIndex), nt.show(temp))]
  }

  /** `prepareStartGcode`: the rewrite is always attempted, whatever the
      first-layer temperature; one wait line is appended exactly when
      nothing was rewritten. */
  function PrepareStartGcode(lines: seq<string>, filamentTemperature: JsNumber, toolIndex: JsNumber, nt: NumberText)
    : (r: seq<string>)
    ensures |lines| <= |r| <= |lines| + 1
    ensures |r| == |lines| + 1 <==> forall j :: 1 <= j < |lines| ==> !TempCommand.Matches(lines[j])
    ensures |r| == |lines| + 1 ==>
      && r[..|lines|] == lines
      && r[|lines|] == TempCommand.WaitLine(nt.show(toolIndex), nt.show(filamentTemperature))
  {
    var (updated, found) := UpdateLastTemperatureCommand(lines, filamentTemperature, nt);
    if !found then AppendM109(updated, filamentTemperature, toolIndex, nt) else updated
  }

  /** The split into a rewrite and a separate append computes exactly what
      the single `setFilamentTemperature` of src/lib/StartGcodePrep.ts
      does with its fallback. */
  lemma AgreesWithFallbackVersion(lines: seq<string>, temp: JsNumber, toolIndex: JsNumber, nt: NumberText)
    ensures PrepareStartGcode(lines, temp, toolIndex, nt) == StartPrep.SetFilamentTemperature(lines, temp, toolIndex, nt).0
  {
  }
}
