/** `GcodeProcessor` (src/lib/GcodeProcessor.ts): reading a sliced G-code
    file into lines, dropping the `;TYPE:Custom` comments, collecting the
    `; key = value` settings, building the required settings, and cutting
    out the start block (everything before `;AFTER_LAYER_CHANGE`) and the
    end block (from the last `; Filament-specific end gcode` on). */
module GcodeFile {
  import opened Wrappers
  import opened Text
  import opened Numbers
  import Settings

  const TypeCustom := ";TYPE:Custom"
  const StartMarker := ";AFTER_LAYER_CHANGE"
  const EndMarker := "; Filament-specific end gcode"

  /** The errors the processor collects. */
  datatype ProcessorError = MissingStartMarker | MissingEndMarker

  /** A line of `s.split(/\r?\n/)` other than the last: the `\r` before
      the line feed belongs to the separator. */
  function DropCarriageReturn(piece: string): (r: string)
    ensures piece == r + (if |piece| > 0 && piece[|piece| - 1] == '\r' then "\r" else "")
  {
    if |piece| > 0 && piece[|piece| - 1] == '\r' then piece[..|piece| - 1] else piece
  }

  /** `gcode.split(/\r?\n/)`: the pieces between line feeds, each without
      the carriage return that precedes its line feed. */
  function SplitLines(gcode: string): (lines: seq<string>)
    ensures |lines| == |Split(gcode, '\n')| >= 1
    ensures forall i :: 0 <= i < |lines| - 1 ==> lines[i] == DropCarriageReturn(Split(gcode, '\n')[i])
    ensures lines[|lines| - 1] == Split(gcode, '\n')[|lines| - 1]
  {
    var pieces := Split(gcode, '\n');
    seq(|pieces|, i requires 0 <= i < |pieces| => if i < |pieces| - 1 then DropCarriageReturn(pieces[i]) else pieces[i])
  }

  /** No line of the split holds a line feed. */
  lemma SplitLinesHaveNoLineFeed(gcode: string)
    ensures forall i :: 0 <= i < |SplitLines(gcode)| ==> !Contains(SplitLines(gcode)[i], "\n")
  {
    var pieces := Split(gcode, '\n');
    SplitOnPiecesFree(gcode, "\n");
    forall i | 0 <= i < |pieces| - 1
      ensures !Contains(DropCarriageReturn(pieces[i]), "\n")
    {
      var p := pieces[i];
      var d := DropCarriageReturn(p);
      forall j | 0 <= j
        ensures !OccursAt(d, "\n", j)
      {
        if OccursAt(d, "\n", j) {
          assert p[j..j + 1] == d[j..j + 1];
          assert OccursAt(p, "\n", j);
        }
      }
    }
  }

  /** Text without carriage returns is given back by joining its lines
      with line feeds. */
  lemma SplitLinesJoin(gcode: string)
    requires forall i :: 0 <= i < |gcode| ==> gcode[i] != '\r'
    ensures Join(SplitLines(gcode), "\n") == gcode
  {
    var pieces := Split(gcode, '\n');
    JoinSplitOn(gcode, "\n");
    PiecesHaveNoCarriageReturn(gcode, "\n");
    assert SplitLines(gcode) == pieces;
  }

  /** Pieces of a split are made of the text's own characters. */
  lemma {:induction false} PiecesHaveNoCarriageReturn(s: string, sep: string)
    requires |sep| > 0
    requires forall i :: 0 <= i < |s| ==> s[i] != '\r'
    ensures forall k, i :: 0 <= k < |SplitOn(s, sep)| && 0 <= i < |SplitOn(s, sep)[k]| ==> SplitOn(s, sep)[k][i] != '\r'
    decreases |s|
  {
    match IndexOf(s, sep, 0)
    case None =>
    case Some(k) =>
      PiecesHaveNoCarriageReturn(s[k + |sep|..], sep);
  }

  /** `#stripTypeCustom`: every line except `;TYPE:Custom`, in order. */
  function StripTypeCustom(lines: seq<string>): (r: seq<string>)
    ensures TypeCustom !in r
    ensures |r| <= |lines|
    ensures forall l :: l != TypeCustom ==> multiset(r)[l] == multiset(lines)[l]
  {
    if |lines| == 0 then []
    else
      var rest := StripTypeCustom(lines[1..]);
      assert lines == [lines[0]] + lines[1..];
      if lines[0] == TypeCustom then rest else [lines[0]] + rest
  }

  /** Stripping twice is stripping once. */
  lemma {:induction false} StripTypeCustomIdempotent(lines: seq<string>)
    ensures StripTypeCustom(StripTypeCustom(lines)) == StripTypeCustom(lines)
  {
    if |lines| > 0 {
      StripTypeCustomIdempotent(lines[1..]);
      var rest := StripTypeCustom(lines[1..]);
      if lines[0] != TypeCustom {
        assert ([lines[0]] + rest)[1..] == rest;
      }
    }
  }

  /** Stripping a concatenation strips each part. */
  lemma {:induction false} StripTypeCustomAppend(a: seq<string>, b: seq<string>)
    ensures StripTypeCustom(a + b) == StripTypeCustom(a) + StripTypeCustom(b)
  {
    if |a| == 0 {
      assert a + b == b;
    } else {
      assert (a + b)[1..] == a[1..] + b;
      StripTypeCustomAppend(a[1..], b);
    }
  }

  /** The characters of a setting key: `[a-z0-9_]`. */
  predicate IsKeyChar(c: char) {
    ('a' <= c <= 'z') || ('0' <= c <= '9') || c == '_'
  }

  /** The end of the run of key characters starting at `from`. */
  function KeyRunEnd(line: string, from: nat): (k: nat)
    requires from <= |line|
    ensures from <= k <= |line|
    ensures forall j :: from <= j < k ==> IsKeyChar(line[j])
    ensures k < |line| ==> !IsKeyChar(line[k])
    decreases |line| - from
  {
    if from < |line| && IsKeyChar(line[from]) then KeyRunEnd(line, from + 1) else from
  }

  /** `line` has the shape `; key = value` the settings expression
      `/^; ([a-z0-9_]+) = (.+)$/` accepts, with this key and value. */
  predicate IsSettingLine(line: string, key: string, value: string) {
    && line == "; " + key + " = " + value
    && |key| > 0 && (forall i :: 0 <= i < |key| ==> IsKeyChar(key[i]))
    && |value| > 0 && (forall i :: 0 <= i < |value| ==> !IsLineTerminator(value[i]))
  }

  /** `setting_regex.exec(line)`: the key and value of a setting line. */
  function MatchSetting(line: string): (r: Option<(string, string)>)
    ensures r.Some? ==> IsSettingLine(line, r.value.0, r.value.1)
  {
    if |line| >= 2 && line[..2] == "; " then
      var k := KeyRunEnd(line, 2);
      if k > 2 && k + 3 < |line| && line[k..k + 3] == " = "
         && (forall j :: k + 3 <= j < |line| ==> !IsLineTerminator(line[j]))
      then
        var key, value := line[2..k], line[k + 3..];
        assert line == "; " + key + " = " + value by {
          assert line == line[..2] + line[2..k] + line[k..k + 3] + line[k + 3..];
        }
        Some((key, value))
      else None
    else None
  }

  /** Every setting line is matched, with its own key and value: the key
      cannot swallow the space of " = ". */
  lemma MatchSettingComplete(line: string, key: string, value: string)
    requires IsSettingLine(line, key, value)
    ensures MatchSetting(line) == Some((key, value))
  {
    var k := 2 + |key|;
    assert line[..2] == "; ";
    assert line[2..k] == key;
    assert line[k..k + 3] == " = ";
    assert line[k + 3..] == value;
    forall j | 2 <= j < k
      ensures IsKeyChar(line[j])
    {
      assert line[j] == key[j - 2];
    }
    assert !IsKeyChar(line[k]);
    assert KeyRunEnd(line, 2) == k by {
      KeyRunEndAt(line, 2, k);
    }
  }

  /** A run of key characters ending at a non-key character ends there. */
  lemma {:induction false} KeyRunEndAt(line: string, from: nat, k: nat)
    requires from <= k < |line|
    requires forall j :: from <= j < k ==> IsKeyChar(line[j])
    requires !IsKeyChar(line[k])
    ensures KeyRunEnd(line, from) == k
    decreases k - from
  {
    if from < k {
      KeyRunEndAt(line, from + 1, k);
    }
  }

  /** `line` is a setting line for `key`. */
  predicate SetsKey(line: string, key: string) {
    MatchSetting(line).Some? && MatchSetting(line).value.0 == key
  }

  /** `#extractPrusaSlicerSettings`: every setting line's key mapped to
      its value; a later line for the same key overwrites an earlier one. */
  function ExtractSettings(lines: seq<string>): (settings: map<string, string>)
    ensures forall key :: key in settings <==> exists i :: 0 <= i < |lines| && SetsKey(lines[i], key)
    decreases |lines|
  {
    if |lines| == 0 then map[]
    else
      var init := lines[..|lines| - 1];
      var earlier := ExtractSettings(init);
      assert forall i :: 0 <= i < |init| ==> init[i] == lines[i];
      match MatchSetting(lines[|lines| - 1])
      case Some((key, value)) => earlier[key := value]
      case None => earlier
  }

  /** The value stored for a key is the value of the last line setting it. */
  lemma {:induction false} LastSettingWins(lines: seq<string>, i: nat)
    requires i < |lines| && MatchSetting(lines[i]).Some?
    requires forall j :: i < j < |lines| ==> !SetsKey(lines[j], MatchSetting(lines[i]).value.0)
    ensures ExtractSettings(lines)[MatchSetting(lines[i]).value.0] == MatchSetting(lines[i]).value.1
    decreases |lines|
  {
    var init := lines[..|lines| - 1];
    if i < |lines| - 1 {
      assert init[i] == lines[i];
      forall j | i < j < |init|
        ensures !SetsKey(init[j], MatchSetting(init[i]).value.0)
      {
        assert init[j] == lines[j];
      }
      LastSettingWins(init, i);
    }
  }

  /** `#findStartGcode`: the lines before the first `;AFTER_LAYER_CHANGE`. */
  function FindStartGcode(lines: seq<string>): (r: Result<seq<string>, ProcessorError>)
    ensures r.Failure? <==> StartMarker !in lines
    ensures r.Failure? ==> r.error == MissingStartMarker
    ensures r.Success? ==> |r.value| < |lines| && r.value == lines[..|r.value|]
    ensures r.Success? ==> lines[|r.value|] == StartMarker && StartMarker !in r.value
  {
    match FirstIndex(lines, l => l == StartMarker)
    case Some(i) => Success(lines[..i])
    case None => Failure(MissingStartMarker)
  }

  /** `#findEndGcode`: the lines from the last `; Filament-specific end
      gcode` on. The backward scan stops before the first line, so a
      marker there alone is not found. */
  function FindEndGcode(lines: seq<string>): (r: Result<seq<string>, ProcessorError>)
    ensures r.Failure? <==> |lines| == 0 || EndMarker !in lines[1..]
    ensures r.Failure? ==> r.error == MissingEndMarker
    ensures r.Success? ==> 0 < |r.value| < |lines| && r.value == lines[|lines| - |r.value|..]
    ensures r.Success? ==> r.value[0] == EndMarker && EndMarker !in r.value[1..]
  {
    match LastIndexFrom1(lines, l => l == EndMarker)
    case Some(i) =>
      assert lines[i..][1..] == lines[i + 1..];
      Success(lines[i..])
    case None => Failure(MissingEndMarker)
  }

  /** The state of a `GcodeProcessor` once the file has been read.
      `settings` is `None` when building the required settings threw. */
  datatype Processor = Processor(
    allLines: seq<string>,
    rawSettings: map<string, string>,
    settings: Option<Settings.Required>,
    startLines: seq<string>,
    endLines: seq<string>,
    errors: seq<ProcessorError>)

  /** The error a missing start or end block records, if any. */
  function ErrorsOf(r: Result<seq<string>, ProcessorError>): (errors: seq<ProcessorError>)
    ensures |errors| <= 1 && (errors == [] <==> r.Success?)
  {
    if r.Success? then [] else [r.error]
  }

  /** The processor state once the settings have been built (or have
      thrown). */
  function Assemble(lines: seq<string>, raw: map<string, string>,
                    built: Result<Settings.Required, Settings.Thrown>): (p: Processor)
    ensures p.allLines == lines && p.rawSettings == raw
    ensures p.settings.None? <==> built.Failure?
    ensures p.settings.Some? ==>
      && p.settings.value == built.value
      && (FindStartGcode(lines).Success? ==> p.startLines == FindStartGcode(lines).value)
      && (FindEndGcode(lines).Success? ==> p.endLines == FindEndGcode(lines).value)
      && (MissingStartMarker in p.errors <==> FindStartGcode(lines).Failure?)
      && (MissingEndMarker in p.errors <==> FindEndGcode(lines).Failure?)
    ensures p.settings.None? ==> p.startLines == [] && p.endLines == []
    ensures p.settings.None? ==> p.errors == []
  {
    match built
    case Failure(_) => Processor(lines, raw, None, [], [], [])
    case Success(required) =>
      var start := FindStartGcode(lines);
      var end := FindEndGcode(lines);
      Processor(lines, raw, Some(required),
                if start.Success? then start.value else [],
                if end.Success? then end.value else [],
                ErrorsOf(start) + ErrorsOf(end))
  }

  /** `#processContents` on the text of the file. When building the
      required settings throws, the reader's callback stops there: the
      start and end blocks stay empty and no marker error is recorded. */
  function Process(gcode: string, nt: NumberText): (p: Processor)
    ensures p.allLines == StripTypeCustom(SplitLines(gcode))
    ensures p.rawSettings == ExtractSettings(p.allLines)
    ensures p.settings.None? <==> Settings.Build(p.rawSettings, nt).Failure?
  {
    var lines := StripTypeCustom(SplitLines(gcode));
    var raw := ExtractSettings(lines);
    Assemble(lines, raw, Settings.Build(raw, nt))
  }

  /** `hasErrors`. */
  predicate HasErrors(p: Processor) {
    |p.errors| > 0 || p.settings.None? || p.settings.value.hasErrors
  }

  /** A processed file is free of errors exactly when both blocks were
      found and every setting parsed cleanly. */
  lemma CleanFile(lines: seq<string>, raw: map<string, string>,
                  built: Result<Settings.Required, Settings.Thrown>)
    ensures var p := Assemble(lines, raw, built);
      !HasErrors(p) <==>
        && built.Success? && !built.value.hasErrors
        && FindStartGcode(lines).Success?
        && FindEndGcode(lines).Success?
  {
    var p := Assemble(lines, raw, built);
    if built.Success? {
      assert p.errors == ErrorsOf(FindStartGcode(lines)) + ErrorsOf(FindEndGcode(lines));
    }
  }
}
