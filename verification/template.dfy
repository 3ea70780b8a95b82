/** The PrusaSlicer-style G-code template evaluator: a line is cut into
    literal text and placeholders — legacy `[name]` / `[name_D]` and
    modern `{name}` / `{name[D]}` — and each placeholder is replaced by an
    entry of a name-to-list map. Nothing else of the slicer's macro
    language (conditionals, expressions, functions) is supported. */
module Template {
  import opened Wrappers
  import opened Text

  /** A piece of a template line. `content` is the exact text the piece
      was read from; for a placeholder, `variable` is first the name read
      from it and, after substitution, the text it is replaced by. */
  datatype Block =
    | Literal(content: string)
    | Script(content: string, variable: string, index: int)

  /** The exceptions the evaluator throws. */
  datatype TemplateError =
    | UnclosedLegacy                           // '[' with no later ']'
    | UnclosedScript                           // '{' with no later '}'
    | UnknownVariable(name: string)            // name absent from the map
    | IndexTooLarge(name: string, index: int)  // index past the list's end

  /** Characters that start a placeholder. */
  predicate IsOpener(c: char) {
    c == '[' || c == '{'
  }

  predicate IsCloseBracket(c: char) {
    c == ']'
  }

  predicate IsCloseBrace(c: char) {
    c == '}'
  }

  /** `\d` of a JavaScript regular expression without the `u` flag. */
  predicate IsDigit(c: char) {
    '0' <= c <= '9'
  }

  function DigitValue(c: char): (d: nat)
    requires IsDigit(c)
    ensures d <= 9
  {
    c as int - '0' as int
  }

  /** `v` matches `/_(\d)$/`: it ends in an underscore and one digit. */
  predicate LegacyIndexed(v: string) {
    |v| >= 2 && v[|v| - 2] == '_' && IsDigit(v[|v| - 1])
  }

  /** `v` matches `/\[(\d)\]$/`: it ends in one digit in square brackets. */
  predicate ModernIndexed(v: string) {
    |v| >= 3 && v[|v| - 3] == '[' && IsDigit(v[|v| - 2]) && v[|v| - 1] == ']'
  }

  /** The variable and index of a legacy placeholder's trimmed text
      `v`: a trailing `_D` is cut off and gives index D. */
  function LegacyName(v: string): (r: (string, int))
    ensures LegacyIndexed(v) ==> r.0 <= v && |r.0| == |v| - 2 && r.1 == DigitValue(v[|v| - 1])
    ensures !LegacyIndexed(v) ==> r == (v, 0)
  {
    if LegacyIndexed(v) then (v[..|v| - 2], DigitValue(v[|v| - 1])) else (v, 0)
  }

  /** The variable and index of a modern placeholder's trimmed text `v`:
      a trailing `[D]` is cut off and gives index D-1. */
  function ModernName(v: string): (r: (string, int))
    ensures ModernIndexed(v) ==> r.0 <= v && |r.0| == |v| - 3 && r.1 == DigitValue(v[|v| - 2]) - 1
    ensures !ModernIndexed(v) ==> r == (v, 0)
  {
    if ModernIndexed(v) then (v[..|v| - 3], DigitValue(v[|v| - 2]) - 1) else (v, 0)
  }

  /** A literal block: the text from `start` up to the next opener or the
      end of the line. */
  function ReadBlock(line: string, start: nat): (r: (Block, nat))
    ensures r.0.Literal?
    ensures start <= |line| ==> start <= r.1 <= |line| && r.0.content == line[start..r.1]
    ensures start <= |line| ==> r.1 == |line| || IsOpener(line[r.1])
    ensures r.1 <= |line|
    ensures forall j :: start <= j < r.1 ==> !IsOpener(line[j])
  {
    match FindChar(line, start, IsOpener)
    case Some(i) => (Literal(line[start..i]), i)
    case None => (Literal(JsSubstring(line, start, |line|)), |line|)
  }

  /** The `]` that closes a `[` at `start`, if any: `indexOf(']', start)`,
      which for one character is its first index at or after `start`. */
  function LegacyEnd(line: string, start: nat): (r: Option<nat>)
    ensures r.Some? ==> start <= r.value < |line| && line[r.value] == ']'
    ensures r.Some? ==> forall j :: start <= j < r.value ==> line[j] != ']'
    ensures r.None? ==> forall j :: start <= j < |line| ==> line[j] != ']'
  {
    FindChar(line, start, IsCloseBracket)
  }

  /** The `}` that closes a `{` at `start`, if any. */
  function ScriptEnd(line: string, start: nat): (r: Option<nat>)
    ensures r.Some? ==> start <= r.value < |line| && line[r.value] == '}'
    ensures r.Some? ==> forall j :: start <= j < r.value ==> line[j] != '}'
    ensures r.None? ==> forall j :: start <= j < |line| ==> line[j] != '}'
  {
    FindChar(line, start, IsCloseBrace)
  }

  /** A legacy placeholder at `start` whose brackets hold only white space:
      it is read as an empty literal, so its text is lost. */
  predicate BlankBracket(line: string, start: nat) {
    start < |line| && line[start] == '[' && LegacyEnd(line, start).Some? &&
    start < LegacyEnd(line, start).value &&
    AllSpace(line[start + 1..LegacyEnd(line, start).value])
  }

  /** A legacy placeholder `[...]` starting at `start`. A trailing `_D`
      (one digit) is the list index; brackets holding only white space
      give an empty literal. */
  function ReadLegacyScriptBlock(line: string, start: nat): (r: Result<(Block, nat), TemplateError>)
    requires start < |line| && line[start] == '['
    ensures r.Failure? <==> LegacyEnd(line, start).None?
    ensures r.Failure? ==> r.error == UnclosedLegacy
    ensures r.Success? ==> r.value.1 == LegacyEnd(line, start).value + 1 && start < r.value.1 <= |line|
    ensures r.Success? && BlankBracket(line, start) ==> r.value.0 == Literal("")
    ensures r.Success? && !BlankBracket(line, start) ==>
      r.value.0.Script? && r.value.0.content == line[start..r.value.1]
    ensures r.Success? && r.value.0.Script? ==>
      (r.value.0.variable, r.value.0.index) == LegacyName(Trim(line[start + 1..r.value.1 - 1]))
  {
    match LegacyEnd(line, start)
    case None => Failure(UnclosedLegacy)
    case Some(e) => Success((BracketBlock(line, start, e), e + 1))
  }

  /** The block for the brackets at `start` and `e`: an empty literal when
      only white space lies between them, else a placeholder over the
      whole bracketed text. */
  function BracketBlock(line: string, start: nat, e: nat): (b: Block)
    requires start < e < |line|
    ensures AllSpace(line[start + 1..e]) ==> b == Literal("")
    ensures !AllSpace(line[start + 1..e]) ==> b.Script? && b.content == line[start..e + 1]
    ensures b.Script? ==> (b.variable, b.index) == LegacyName(Trim(line[start + 1..e]))
  {
    // `substring` with in-range bounds is the slice; the inner text is
    // the content without its two delimiters.
    var variable := Trim(line[start + 1..e]);
    if |variable| == 0 then Literal("")
    else
      var parsed := LegacyName(variable);
      Script(line[start..e + 1], parsed.0, parsed.1)
  }

  /** A modern placeholder `{...}` starting at `start`, closed by the first
      later `}`. A trailing `[D]` (one digit) gives the list index D-1. */
  function ReadScriptBlock(line: string, start: nat): (r: Result<(Block, nat), TemplateError>)
    requires start < |line| && line[start] == '{'
    ensures r.Failure? <==> ScriptEnd(line, start).None?
    ensures r.Failure? ==> r.error == UnclosedScript
    ensures r.Success? ==> r.value.1 == ScriptEnd(line, start).value + 1 && start < r.value.1 <= |line|
    ensures r.Success? ==> r.value.0.Script? && r.value.0.content == line[start..r.value.1]
    ensures r.Success? ==>
      (r.value.0.variable, r.value.0.index) == ModernInner(line[start + 1..r.value.1 - 1])
  {
    match ScriptEnd(line, start)
    case None => Failure(UnclosedScript)
    case Some(e) => Success((BraceBlock(line, start, e + 1), e + 1))
  }

  /** The variable and index of a modern placeholder whose braces hold
      `inner`. */
  function ModernInner(inner: string): (string, int) {
    ModernName(Trim(inner))
  }

  /** The placeholder for the braces at `start` and `next - 1`, named
      from the trimmed text between them. */
  function BraceBlock(line: string, start: nat, next: nat): (b: Block)
    requires start + 1 < next <= |line|
    ensures b.Script? && b.content == line[start..next]
    ensures (b.variable, b.index) == ModernInner(line[start + 1..next - 1])
  {
    // `substring` with in-range bounds is the slice; the inner text is
    // the content without its two delimiters.
    var parsed := ModernInner(line[start + 1..next - 1]);
    Script(line[start..next], parsed.0, parsed.1)
  }

  /** The block starting at `start`, chosen by its first character, and the
      index just past it. */
  function NextBlock(line: string, start: nat): (r: Result<(Block, nat), TemplateError>)
    requires start < |line|
    ensures r.Success? ==> start < r.value.1 <= |line|
    ensures r.Success? ==> r.value.0.content == (if BlankBracket(line, start) then "" else line[start..r.value.1])
    ensures r.Success? && r.value.0.Literal? ==> forall c :: c in r.value.0.content ==> !IsOpener(c)
    ensures r.Failure? ==> r.error.UnclosedLegacy? || r.error.UnclosedScript?
    ensures r == Failure(UnclosedLegacy) <==> line[start] == '[' && LegacyEnd(line, start).None?
    ensures r == Failure(UnclosedScript) <==> line[start] == '{' && ScriptEnd(line, start).None?
  {
    if line[start] == '[' then ReadLegacyScriptBlock(line, start)
    else if line[start] == '{' then ReadScriptBlock(line, start)
    else Success(ReadBlock(line, start))
  }

  /** `line` has an opener at `k` that is never closed. */
  predicate UnclosedAt(line: string, k: nat) {
    k < |line| &&
    ((line[k] == '[' && LegacyEnd(line, k).None?) || (line[k] == '{' && ScriptEnd(line, k).None?))
  }

  /** The blocks of `line` from index `i` on. */
  function SplitFrom(line: string, i: nat): (r: Result<seq<Block>, TemplateError>)
    ensures r.Success? && i <= |line| ==> |r.value| <= |line| - i
    ensures r.Success? ==> forall k :: 0 <= k < |r.value| && r.value[k].Literal? ==>
      forall c :: c in r.value[k].content ==> !IsOpener(c)
    ensures r.Failure? ==> r.error.UnclosedLegacy? || r.error.UnclosedScript?
    ensures r.Failure? ==> exists k :: i <= k < |line| && UnclosedAt(line, k)
    decreases |line| - i
  {
    if i >= |line| then Success([])
    else
      match NextBlock(line, i)
      case Failure(e) =>
        assert UnclosedAt(line, i);
        Failure(e)
      case Success((block, next)) =>
        var rest :- SplitFrom(line, next);
        LiteralsStayOpenerFree(block, rest);
        Success([block] + rest)
  }

  /** Putting a block whose literal text has no opener in front of blocks
      of that kind keeps every literal free of openers. */
  lemma LiteralsStayOpenerFree(block: Block, rest: seq<Block>)
    requires block.Literal? ==> forall c :: c in block.content ==> !IsOpener(c)
    requires forall k :: 0 <= k < |rest| && rest[k].Literal? ==> forall c :: c in rest[k].content ==> !IsOpener(c)
    ensures var blocks := [block] + rest;
      forall k :: 0 <= k < |blocks| && blocks[k].Literal? ==> forall c :: c in blocks[k].content ==> !IsOpener(c)
  {
    var blocks := [block] + rest;
    forall k | 1 <= k < |blocks|
      ensures blocks[k] == rest[k - 1]
    {
    }
  }

  /** `splitToBlocks(line)`. */
  function SplitToBlocks(line: string): (r: Result<seq<Block>, TemplateError>)
    ensures r.Success? ==> |r.value| <= |line|
    ensures r.Failure? ==> exists k :: 0 <= k < |line| && UnclosedAt(line, k)
  {
    SplitFrom(line, 0)
  }

  /** `joinBlocks`: the blocks' source texts, concatenated. */
  function JoinBlocks(blocks: seq<Block>): string {
    if blocks == [] then "" else blocks[0].content + JoinBlocks(blocks[1..])
  }

  /** The text a block contributes once substituted. */
  function Rendered(b: Block): string {
    if b.Script? then b.variable else b.content
  }

  /** `joinTemplatedBlocks`: literals as written, placeholders as their
      (substituted) variable. */
  function JoinTemplated(blocks: seq<Block>): string {
    if blocks == [] then "" else Rendered(blocks[0]) + JoinTemplated(blocks[1..])
  }

  /** `list[k]` as `Array.join` renders it: an index outside the list
      reads `undefined`, which joins as the empty text. */
  function Entry(list: seq<string>, k: int): string {
    if 0 <= k < |list| then list[k] else ""
  }

  /** The substitution for one placeholder: only an absent name or a
      non-zero index at or past the list's end fails. Index 0 is never
      checked (an empty list gives the empty text) and index -1, which
      `{name[0]}` produces, passes the check and reads `undefined`. */
  function Substitute(b: Block, replacements: map<string, seq<string>>): (r: Result<Block, TemplateError>)
    requires b.Script?
    ensures r.Success? <==> b.variable in replacements && (b.index == 0 || b.index < |replacements[b.variable]|)
    ensures r.Success? ==> r.value == b.(variable := Entry(replacements[b.variable], b.index))
    ensures b.variable !in replacements ==> r == Failure(UnknownVariable(b.variable))
    ensures b.variable in replacements && b.index != 0 && b.index >= |replacements[b.variable]| ==>
      r == Failure(IndexTooLarge(b.variable, b.index))
  {
    if b.variable in replacements then
      var list := replacements[b.variable];
      if b.index != 0 then
        if b.index >= |list| then Failure(IndexTooLarge(b.variable, b.index))
        else Success(b.(variable := Entry(list, b.index)))
      else Success(b.(variable := Entry(list, 0)))
    else Failure(UnknownVariable(b.variable))
  }

  /** A placeholder `replaceVariables` accepts. */
  predicate Resolvable(b: Block, replacements: map<string, seq<string>>) {
    b.Literal? || (b.variable in replacements && (b.index == 0 || b.index < |replacements[b.variable]|))
  }

  /** `replaceVariables`: every placeholder's variable becomes its list
      entry; the first placeholder that cannot be resolved throws. */
  function ReplaceVariables(blocks: seq<Block>, replacements: map<string, seq<string>>): (r: Result<seq<Block>, TemplateError>)
    ensures r.Success? <==> forall k :: 0 <= k < |blocks| ==> Resolvable(blocks[k], replacements)
    ensures r.Success? ==> |r.value| == |blocks|
    ensures r.Success? ==> forall k :: 0 <= k < |blocks| && blocks[k].Literal? ==> r.value[k] == blocks[k]
    ensures r.Success? ==> forall k :: 0 <= k < |blocks| && blocks[k].Script? ==>
      r.value[k] == blocks[k].(variable := Entry(replacements[blocks[k].variable], blocks[k].index))
    ensures r.Failure? ==>
      exists k :: 0 <= k < |blocks| && !Resolvable(blocks[k], replacements) &&
        (forall j :: 0 <= j < k ==> Resolvable(blocks[j], replacements)) &&
        r == Substitute(blocks[k], replacements).PropagateFailure()
  {
    if blocks == [] then Success([])
    else
      var head :- if blocks[0].Script? then Substitute(blocks[0], replacements) else Success(blocks[0]);
      var tail :- ReplaceVariables(blocks[1..], replacements);
      Success([head] + tail)
  }

  /** One template line, evaluated. */
  function EvaluateLine(line: string, replacements: map<string, seq<string>>): (r: Result<string, TemplateError>) {
    var blocks :- SplitToBlocks(line);
    var replaced :- ReplaceVariables(blocks, replacements);
    Success(JoinTemplated(replaced))
  }

  /** The separator `evaluateGcodeTemplate` splits on: a backslash
      followed by `n`, not a line feed. */
  const LineBreakText: string := "\\n"

  /** Evaluate the lines `lines[i..]`, stopping at the first error. */
  function EvaluateLines(lines: seq<string>, replacements: map<string, seq<string>>): (r: Result<seq<string>, TemplateError>)
    ensures r.Success? <==> forall k :: 0 <= k < |lines| ==> EvaluateLine(lines[k], replacements).Success?
    ensures r.Success? ==> |r.value| == |lines|
    ensures r.Success? ==> forall k :: 0 <= k < |lines| ==> EvaluateLine(lines[k], replacements) == Success(r.value[k])
    ensures r.Failure? ==>
      exists k :: 0 <= k < |lines| && EvaluateLine(lines[k], replacements).Failure? &&
        (forall j :: 0 <= j < k ==> EvaluateLine(lines[j], replacements).Success?) &&
        r.error == EvaluateLine(lines[k], replacements).error
  {
    if lines == [] then Success([])
    else
      var first :- EvaluateLine(lines[0], replacements);
      var rest :- EvaluateLines(lines[1..], replacements);
      Success([first] + rest)
  }

  /** The pieces of a template: the texts between the two-character
      separator `\n`. */
  function Pieces(template: string): (pieces: seq<string>)
    ensures Join(pieces, LineBreakText) == template
    ensures forall k :: 0 <= k < |pieces| ==> !Contains(pieces[k], LineBreakText)
  {
    JoinSplitOn(template, LineBreakText);
    SplitOnPiecesFree(template, LineBreakText);
    SplitOn(template, LineBreakText)
  }

  /** `evaluateGcodeTemplate`: piece `k` of the template evaluates to
      output line `k`; the first piece that throws decides the error. */
  function EvaluateGcodeTemplate(template: string, replacements: map<string, seq<string>>): (r: Result<seq<string>, TemplateError>)
    ensures r.Success? <==> forall k :: 0 <= k < |Pieces(template)| ==> EvaluateLine(Pieces(template)[k], replacements).Success?
    ensures r.Success? ==> |r.value| == |Pieces(template)|
    ensures r.Success? ==> forall k :: 0 <= k < |Pieces(template)| ==>
      EvaluateLine(Pieces(template)[k], replacements) == Success(r.value[k])
    ensures r.Failure? ==>
      exists k :: 0 <= k < |Pieces(template)| && EvaluateLine(Pieces(template)[k], replacements).Failure? &&
        (forall j :: 0 <= j < k ==> EvaluateLine(Pieces(template)[j], replacements).Success?) &&
        r.error == EvaluateLine(Pieces(template)[k], replacements).error
  {
    EvaluateLines(Pieces(template), replacements)
  }

  /** No `[` of `line` opens brackets that hold only white space. */
  predicate NoBlankBrackets(line: string) {
    forall k :: 0 <= k < |line| ==> !BlankBracket(line, k)
  }

  lemma {:induction false} SplitFromJoin(line: string, i: nat)
    requires i <= |line| && NoBlankBrackets(line)
    requires SplitFrom(line, i).Success?
    ensures JoinBlocks(SplitFrom(line, i).value) == line[i..]
    decreases |line| - i
  {
    if i < |line| {
      var step := NextBlock(line, i).value;
      var next := step.1;
      SplitFromJoin(line, next);
      var rest := SplitFrom(line, next).value;
      assert SplitFrom(line, i).value == [step.0] + rest;
      assert step.0.content == line[i..next] by {
        assert !BlankBracket(line, i);
      }
      JoinBlocksCons(step.0, rest);
      SliceSplit(line, i, next);
    }
  }

  lemma JoinBlocksCons(b: Block, rest: seq<Block>)
    ensures JoinBlocks([b] + rest) == b.content + JoinBlocks(rest)
  {
    assert ([b] + rest)[1..] == rest;
  }

  lemma SliceSplit(s: string, i: nat, j: nat)
    requires i <= j <= |s|
    ensures s[i..] == s[i..j] + s[j..]
  {
  }

  /** Joining the blocks of a line gives the line back, unless it holds a
      blank `[ ]` placeholder. */
  lemma JoinSplitToBlocks(line: string)
    requires NoBlankBrackets(line) && SplitToBlocks(line).Success?
    ensures JoinBlocks(SplitToBlocks(line).value) == line
  {
    SplitFromJoin(line, 0);
  }

  /** A blank `[ ]` placeholder becomes an empty literal, so the round trip
      loses its text. */
  lemma BlankBracketLosesText()
    ensures SplitToBlocks("[ ]") == Success([Literal("")])
    ensures JoinBlocks(SplitToBlocks("[ ]").value) != "[ ]"
  {
    var line := "[ ]";
    assert LegacyEnd(line, 0) == Some(2);
    assert line[1..2] == " ";
    assert AllSpace(line[1..2]);
    assert BlankBracket(line, 0);
    assert NextBlock(line, 0) == Success((Literal(""), 3));
    assert SplitFrom(line, 3) == Success([]);
    assert SplitFrom(line, 0) == Success([Literal("")] + []);
    assert [Literal("")] + [] == [Literal("")];
    assert SplitToBlocks(line) == SplitFrom(line, 0);
  }

  /** If the first opener of a line is never closed, splitting throws. */
  lemma FirstOpenerUnclosedFails(line: string, k: nat)
    requires FindChar(line, 0, IsOpener) == Some(k) && UnclosedAt(line, k)
    ensures SplitToBlocks(line).Failure?
  {
    assert NextBlock(line, k).Failure?;
    if k > 0 {
      assert !IsOpener(line[0]);
      assert NextBlock(line, 0) == Success((Literal(line[..k]), k));
      assert SplitFrom(line, k).Failure?;
    }
  }

  /** The opener of the other kind than the one at `k`. */
  function OtherOpener(line: string, k: nat): char
    requires k < |line|
  {
    if line[k] == '[' then '{' else '['
  }

  /** Splitting from `i` reaches an unclosed opener at `k` when no opener
      of the other kind lies between: a block of the same kind would
      need a closer at or past `k`, and a literal stops at `k`. */
  lemma {:induction false} UnclosedReached(line: string, i: nat, k: nat)
    requires i <= k && UnclosedAt(line, k)
    requires forall j :: i <= j < k ==> line[j] != OtherOpener(line, k)
    ensures SplitFrom(line, i).Failure?
    decreases k - i
  {
    if i < k {
      if NextBlock(line, i).Success? {
        var next := NextBlock(line, i).value.1;
        BlockStopsAtUnclosed(line, i, k);
        UnclosedReached(line, next, k);
        RestFailurePropagates(line, i);
      }
    }
  }

  /** A block starting before such an opener ends at or before it. */
  lemma BlockStopsAtUnclosed(line: string, i: nat, k: nat)
    requires i < k && UnclosedAt(line, k)
    requires forall j :: i <= j < k ==> line[j] != OtherOpener(line, k)
    requires NextBlock(line, i).Success?
    ensures NextBlock(line, i).value.1 <= k
  {
    if line[i] == '[' {
      assert LegacyEnd(line, i).value < k;
    } else if line[i] == '{' {
      assert ScriptEnd(line, i).value < k;
    } else {
      assert IsOpener(line[k]);
    }
  }

  /** A failure after the first block is a failure of the whole split. */
  lemma RestFailurePropagates(line: string, i: nat)
    requires i < |line| && NextBlock(line, i).Success?
    requires SplitFrom(line, NextBlock(line, i).value.1).Failure?
    ensures SplitFrom(line, i).Failure?
  {
  }

  /** A line throws when an opener is never closed and no opener of the
      other kind comes before it: `[a] [b` and `{a} {b` both throw. */
  lemma UnclosedOpenerFails(line: string, k: nat)
    requires UnclosedAt(line, k)
    requires forall j :: 0 <= j < k ==> line[j] != OtherOpener(line, k)
    ensures SplitToBlocks(line).Failure?
  {
    UnclosedReached(line, 0, k);
  }

  /** `[a] [b` splits into a placeholder and a space, then throws at the
      second `[`. */
  lemma SecondLegacyUnclosedFails()
    ensures SplitToBlocks("[a] [b").Failure?
  {
    var line := "[a] [b";
    assert LegacyEnd(line, 4).None? && line[4] == '[';
    UnclosedOpenerFails(line, 4);
  }

  /** An opener inside a modern placeholder is not an opener: `{a[}` has
      a `[` that is never closed, yet reads as one placeholder. */
  lemma OpenerInsidePlaceholder()
    ensures UnclosedAt("{a[}", 2)
    ensures SplitToBlocks("{a[}") == Success([Script("{a[}", "a[", 0)])
  {
    var line := "{a[}";
    assert LegacyEnd(line, 2) == None;
    assert ScriptEnd(line, 0) == Some(3);
    assert line[1..3] == "a[";
    assert Trim("a[") == "a[" by { TrimTrimmed("a["); }
    assert ModernName("a[") == ("a[", 0);
    assert line[0..4] == line;
    assert ReadScriptBlock(line, 0).Success?;
    assert NextBlock(line, 0) == Success((Script(line, "a[", 0), 4));
    assert SplitFrom(line, 4) == Success([]);
    assert SplitFrom(line, 0) == Success([Script(line, "a[", 0)] + []);
    assert [Script(line, "a[", 0)] + [] == [Script(line, "a[", 0)];
    assert SplitToBlocks(line) == SplitFrom(line, 0);
  }

  /** A trailing `_D` is read back as the name before it and index D. */
  lemma LegacyNameOf(name: string, d: char)
    requires IsDigit(d)
    ensures LegacyName(name + "_" + [d]) == (name, DigitValue(d))
  {
    var v := name + "_" + [d];
    assert v[..|v| - 2] == name;
  }

  /** A trailing `[D]` is read back as the name before it and index D-1. */
  lemma ModernNameOf(name: string, d: char)
    requires IsDigit(d)
    ensures ModernName(name + "[" + [d] + "]") == (name, DigitValue(d) - 1)
  {
    var v := name + "[" + [d] + "]";
    assert v[..|v| - 3] == name;
  }

  /** `v` has no white space at either end. */
  predicate Trimmed(v: string) {
    v != "" ==> !IsJsSpace(v[0]) && !IsJsSpace(v[|v| - 1])
  }

  /** Writing a trimmed, non-empty text `v` between brackets and reading
      it back gives one placeholder spanning the whole text, named and
      indexed as `LegacyName` reads `v`. */
  lemma LegacyPlaceholderRead(v: string)
    requires v != "" && Trimmed(v)
    requires forall i :: 0 <= i < |v| ==> v[i] != ']'
    ensures var text := "[" + v + "]";
      ReadLegacyScriptBlock(text, 0) == Success((Script(text, LegacyName(v).0, LegacyName(v).1), |text|))
  {
    var text := "[" + v + "]";
    var e := |text| - 1;
    assert LegacyEnd(text, 0) == Some(e) by {
      assert forall i :: 0 <= i < |v| ==> text[i + 1] == v[i];
      FindCharAt(text, 0, IsCloseBracket, e);
    }
    assert text[1..e] == v;
    assert Trim(v) == v by {
      TrimTrimmed(v);
    }
    assert !BlankBracket(text, 0);
    assert text[0..e + 1] == text;
  }

  /** The same for a modern placeholder `{v}`. */
  lemma ModernPlaceholderRead(v: string)
    requires Trimmed(v)
    requires forall i :: 0 <= i < |v| ==> v[i] != '}'
    ensures var text := "{" + v + "}";
      ReadScriptBlock(text, 0) == Success((Script(text, ModernName(v).0, ModernName(v).1), |text|))
  {
    var text := "{" + v + "}";
    var e := |text| - 1;
    assert ScriptEnd(text, 0) == Some(e) by {
      assert forall i :: 0 <= i < |v| ==> text[i + 1] == v[i];
      FindCharAt(text, 0, IsCloseBrace, e);
    }
    assert text[1..e] == v;
    assert Trim(v) == v by {
      TrimTrimmed(v);
    }
    assert text[0..e + 1] == text;
  }

  /** A line without openers is one literal and evaluates to itself,
      whatever the map. */
  lemma PlainLineUnchanged(line: string, replacements: map<string, seq<string>>)
    requires forall i :: 0 <= i < |line| ==> !IsOpener(line[i])
    ensures EvaluateLine(line, replacements) == Success(line)
  {
    if line == "" {
      assert SplitToBlocks(line) == Success([]);
    } else {
      assert NextBlock(line, 0) == Success((Literal(line), |line|)) by {
        assert line[0..|line|] == line;
      }
      assert SplitFrom(line, |line|) == Success([]);
      assert SplitToBlocks(line) == Success([Literal(line)] + []);
      assert [Literal(line)] + [] == [Literal(line)];
      assert ReplaceVariables([Literal(line)], replacements) == Success([Literal(line)]);
      assert JoinTemplated([Literal(line)]) == line;
    }
  }

  lemma ZeroModernIndexName()
    ensures ModernName("x[0]") == ("x", -1)
  {
    assert ModernIndexed("x[0]");
    assert "x[0]"[..1] == "x";
  }

  /** `{x[0]}` is read as variable `x` with index -1. */
  lemma ZeroModernIndexParse()
    ensures SplitToBlocks("{x[0]}") == Success([Script("{x[0]}", "x", -1)])
  {
    var line := "{x[0]}";
    ZeroModernIndexName();
    assert "{" + "x[0]" + "}" == line;
    ModernPlaceholderRead("x[0]");
    var block := Script(line, "x", -1);
    assert ReadScriptBlock(line, 0) == Success((block, |line|));
    assert line[0] == '{';
    SingleBlockSplit(line, block);
  }

  /** A line read whole by its first block splits into that one block. */
  lemma SingleBlockSplit(line: string, block: Block)
    requires 0 < |line| && NextBlock(line, 0) == Success((block, |line|))
    ensures SplitToBlocks(line) == Success([block])
  {
    assert SplitFrom(line, |line|) == Success([]);
    assert [block] + [] == [block];
  }

  /** `{x[0]}` asks for index -1: it passes the range check and reads
      `undefined`, which renders as nothing. */
  lemma ZeroModernIndexReadsNothing()
    ensures EvaluateLine("{x[0]}", map["x" := ["a"]]) == Success("")
  {
    ZeroModernIndexParse();
    var block := Script("{x[0]}", "x", -1);
    var replacements := map["x" := ["a"]];
    assert Resolvable([block][0], replacements);
    var replaced := ReplaceVariables([block], replacements);
    assert replaced.Success?;
    assert replaced.value == [block.(variable := "")];
    assert JoinTemplated(replaced.value) == "";
  }

  /** A template without the text `\n` — real line feeds included — is
      evaluated as one line. */
  lemma SingleLineTemplate(template: string, replacements: map<string, seq<string>>)
    requires !Contains(template, LineBreakText)
    ensures EvaluateGcodeTemplate(template, replacements).Success? <==> EvaluateLine(template, replacements).Success?
    ensures EvaluateGcodeTemplate(template, replacements).Success? ==>
      EvaluateGcodeTemplate(template, replacements).value == [EvaluateLine(template, replacements).value]
  {
    SplitOnAbsent(template, LineBreakText);
    assert Pieces(template) == [template];
  }
}
