# Pressure-advance calibration for PrusaSlicer G-code, in Dafny

This is a Dafny model of the core of a browser tool that calibrates pressure advance (linear advance). The tool's pipeline:

- It reads a G-code file that PrusaSlicer has sliced.
- It collects the slicer's `; key = value` settings and parses the ones it needs.
- It derives a test configuration from them: which firmware command sets the advance, speeds, accelerations, retraction, bed and fan.
- It chooses a range of test values and generates the calibration pattern, a list of test lines with value labels.
- It puts the pattern between the file's own start block and end block. The start block gets the test temperature and print area, or, for Klipper, is rebuilt from the slicer's start template.

Modules, one per part of the program:

| module | file | models |
|---|---|---|
| `Template` | template.dfy | the PrusaSlicer-style template evaluator (`[name]`, `[name_D]`, `{name}`, `{name[D]}`) |
| `RangeModel` | range_model.dfy | the pressure-advance range model: choice of step and test values, exact decimal arithmetic |
| `Settings` | settings.dfy | the descriptor table of required slicer settings, parsers, describers, error collection |
| `GcodeFile` | gcode_file.dfy | reading the file: lines, `;TYPE:Custom` removal, settings map, start and end blocks |
| `TempCommand` | temp_command.dfy | the `M109` temperature expression and rewrite shared by every start-block preparation |
| `StartEndPrep` | start_end_prep.dfy | `prepareStartEndGcode`: temperature, `M555` print area, thumbnail, Klipper rebuild |
| `StartPrep` | start_prep.dfy | the earlier `prepareStartGcode` with its wait-line fallback and Klipper velocity override |
| `SvelteStartPrep` | svelte_start_prep.dfy | the Svelte application's `prepareStartGcode` |
| `Configuration` | configuration.dfy | `TestPatternConfiguration` and its value-selection helpers |
| `Pattern` | pattern.dfy | `generateTestPattern` as the list of commands it prints, and the bed-fit validation |
| `Legacy` | legacy.dfy | the page-independent helpers of the earlier single-page tool (js/ux.js) |
| `Decimal` | decimal.dfy | big.js rounding as used by the range model and `roundDecimal` |
| `Numbers` | numbers.dfy | JavaScript numbers (`NaN`, infinities, finite values) and the text conversions |
| `Text` | text.dfy | `split`, `indexOf`, `substring`, `trim`, `join` on strings |
| `Wrappers` | wrappers.dfy | `Option` and `Result` |

**Modelling choices**
- A throw is a `Failure`, and a `null` setting is `None`.
- Finite numbers are exact reals. The model does not round to IEEE-754 doubles.
- The runtime's number/text conversions are a parameter `NumberText` of the operations. These are `parseInt`, `parseFloat`, `String(n)` and `toFixed`. Every result therefore holds whatever those conversions do.
- Cosine and sine of the print direction are a parameter `Trig`.

## Model

| member | source | states |
|---|---|---|
| Template.LegacyName | src/lib/PrusaGcodeTemplateEvaluator.ts:133-138 | a trailing `_D` (one digit) is cut off and becomes index D; any other text is the name with index 0 |
| Template.ModernName | src/lib/PrusaGcodeTemplateEvaluator.ts:151-156 | a trailing `[D]` is cut off and becomes index D-1; any other text is the name with index 0 |
| Template.ReadBlock | src/lib/PrusaGcodeTemplateEvaluator.ts:109-119 | a literal runs from the start up to the first `[` or `{` or the end of the line, holds exactly that text, and contains no opener |
| Template.ReadLegacyScriptBlock | src/lib/PrusaGcodeTemplateEvaluator.ts:121-140 | fails with the unclosed-bracket error exactly when no `]` follows; ends just past the first `]`; white space alone between the brackets gives an empty literal; otherwise a placeholder over the bracketed text, named by its trimmed inside |
| Template.ReadScriptBlock | src/lib/PrusaGcodeTemplateEvaluator.ts:142-161 | fails with the unclosed-brace error exactly when no `}` follows; otherwise a placeholder spanning up to the first `}`, named and indexed from its trimmed inside |
| Template.NextBlock | src/lib/PrusaGcodeTemplateEvaluator.ts:97-107 | progresses by at least one character; the block holds the source text it read (empty only for blank brackets); each unclosed error occurs exactly when the opener at the start is never closed |
| Template.SplitToBlocks | src/lib/PrusaGcodeTemplateEvaluator.ts:54-71 | no more blocks than characters; a failure implies some opener of the line is never closed (the converse is `Template.UnclosedOpenerFails`) |
| Template.ReplaceVariables | src/lib/PrusaGcodeTemplateEvaluator.ts:34-52 | succeeds exactly when every placeholder's name is in the map and its index is 0 or below the list's length; literals are kept and each placeholder gets its list entry; otherwise the first unresolvable placeholder's error |
| Template.Substitute | src/lib/PrusaGcodeTemplateEvaluator.ts:39-48 | unknown name throws the unknown-variable error; a non-zero index at or past the list's end throws the index error; index 0 is never checked |
| Template.EvaluateLines | src/lib/PrusaGcodeTemplateEvaluator.ts:22-32 | succeeds exactly when every line evaluates; then one output line per template line, each the evaluation of that line; otherwise the error of the first line that fails |
| Template.EvaluateGcodeTemplate | src/lib/PrusaGcodeTemplateEvaluator.ts:22-32 | succeeds exactly when every piece between the two-character texts `\n` evaluates; output line k is the evaluation of piece k; otherwise the first failing piece's error |
| Template.Pieces | src/lib/PrusaGcodeTemplateEvaluator.ts:23 | joining the pieces with `\n` gives the template back, and no piece holds the separator |
| Template.JoinSplitToBlocks | src/lib/PrusaGcodeTemplateEvaluator.test.ts:70-100 | joining the blocks of a line gives the line back, for lines without blank `[ ]` placeholders |
| Template.SplitFromJoin | src/lib/PrusaGcodeTemplateEvaluator.ts:54-82 | the round trip of `JoinSplitToBlocks` for the blocks from any index on, by induction |
| Template.BlankBracketLosesText | src/lib/PrusaGcodeTemplateEvaluator.ts:129-132 | `[ ]` splits into one empty literal, so the round trip does not give `[ ]` back |
| Template.FirstOpenerUnclosedFails | src/lib/PrusaGcodeTemplateEvaluator.test.ts:61-67 | when the line's first opener is never closed, splitting throws |
| Template.UnclosedOpenerFails | src/lib/PrusaGcodeTemplateEvaluator.ts:54-71 | an opener never closed throws when no opener of the other kind comes before it, wherever it stands in the line |
| Template.UnclosedReached | src/lib/PrusaGcodeTemplateEvaluator.ts:54-71 | splitting from any index before such an opener reaches it and throws |
| Template.BlockStopsAtUnclosed | src/lib/PrusaGcodeTemplateEvaluator.ts:110-161 | every block starting before such an opener ends at or before it |
| Template.SecondLegacyUnclosedFails | src/lib/PrusaGcodeTemplateEvaluator.ts:122-125 | `[a] [b` throws at its second `[` |
| Template.OpenerInsidePlaceholder | src/lib/PrusaGcodeTemplateEvaluator.ts:142-161 | a `[` inside `{...}` is no opener: `{a[}` is one placeholder although its `[` is never closed |
| Template.LegacyPlaceholderRead | src/lib/PrusaGcodeTemplateEvaluator.test.ts:4-20 | `[v]` for a trimmed non-empty `v` without `]` reads back as one placeholder over the whole text, named as `LegacyName` reads `v` |
| Template.ModernPlaceholderRead | src/lib/PrusaGcodeTemplateEvaluator.test.ts:23-39 | `{v}` for a trimmed `v` without `}` reads back as one placeholder over the whole text, named as `ModernName` reads `v` |
| Template.LegacyNameOf | src/lib/PrusaGcodeTemplateEvaluator.ts:133-138 | `name_D` reads back as `name` and index D |
| Template.ModernNameOf | src/lib/PrusaGcodeTemplateEvaluator.ts:151-156 | `name[D]` reads back as `name` and index D-1 |
| Template.PlainLineUnchanged | src/lib/PrusaGcodeTemplateEvaluator.ts:22-95 | a line without `[` or `{` evaluates to itself under every map |
| Template.ZeroModernIndexReadsNothing | src/lib/PrusaGcodeTemplateEvaluator.ts:39-45 | `{x[0]}` asks for index -1, passes the range check, and renders as the empty text |
| Template.SingleLineTemplate | src/lib/PrusaGcodeTemplateEvaluator.ts:22-32 | a template without the text `\n` (real line feeds included) evaluates as one line |
| RangeModel.ScanFrom | src/lib/PressureAdvanceModel.ts:32-44 | the scan from the smallest increment up returns the first increment whose step count lies in [10, 30], and no increment it passed fits |
| RangeModel.CalculateLines | src/lib/PressureAdvanceModel.ts:28-45 | start and end are always taken over; when nothing fits, step and lines keep their old values; otherwise the step is the chosen increment |
| RangeModel.SetRange | src/lib/PressureAdvanceModel.ts:48-55 | throws exactly when a bound is not finite or `start + 0.01 >= end`; on success the new bounds are stored |
| RangeModel.SetRangeLines | src/lib/PressureAdvanceModel.ts:34-41 | when a step is found there are `n + 1` lines for a step count n in [10, 30]; line j is `start + j·step` to three decimals; the lines ascend strictly |
| RangeModel.TestValuesAscending | src/lib/PressureAdvanceModel.ts:36-41 | with a step of at least 0.001 the three-decimal test values ascend strictly |
| RangeModel.ChosenStepIsSmallestFitting | src/lib/PressureAdvanceModel.ts:13-44 | the chosen increment fits and no smaller listed increment does; when none is chosen none fits |
| RangeModel.InitialConsistent | src/lib/PressureAdvanceModel.ts:5-16 | the constructed model (0 to 2, step 0.1, no lines) satisfies the invariant: step a listed increment, lines empty or 11 to 31 ascending values |
| RangeModel.SetRangeConsistent | src/lib/PressureAdvanceModel.ts:48-55 | `setRange` preserves that invariant |
| RangeModel.StaleWhenNothingFits | src/lib/PressureAdvanceModel.ts:28-45 | when no increment fits, only start and end change; the step and lines are those of the previous range |
| RangeModel.WideRangeFitsNothing | src/lib/PressureAdvanceModel.ts:10-13 | a range of 3100 or more fits no increment |
| RangeModel.LineCountIsCeiling | src/lib/PressureAdvanceModel.ts:34-40 | when the quotient range/step has at most 20 decimals, `start + n·step` reaches `end` and `start + (n-1)·step` stays below it |
| RangeModel.CeilingFailsPastTwentyDecimals | src/lib/PressureAdvanceModel.ts:34 | for start = -10^-30 and end = 0.02 the division rounds 20 + 10^-27 to 20, so the last unrounded value stays below `end` |
| Decimal.HalfUpUnits | src/lib/PressureAdvanceModel.ts:34-40 | rounding mode 1 to a whole number: within half a unit, on the same side of zero, and a value ending in one half goes away from zero (half-open bounds on each side of zero) |
| Decimal.Fixed3 | src/lib/PressureAdvanceModel.ts:39-40 | `toFixed(3)` result: a three-decimal value within half a thousandth of the input, on the same side of zero, with a tie resolved away from zero |
| Decimal.Fixed3TiesAwayFromZero | src/lib/PressureAdvanceModel.ts:39-40 | a value exactly halfway between two thousandths rounds to the one farther from zero, for positive and negative values |
| Decimal.DivRound | src/lib/PressureAdvanceModel.ts:34 | `Big.div` result: a 20-decimal value within half a unit of the 20th decimal of the exact quotient, with a tie resolved away from zero |
| Decimal.Fixed3Separates | src/lib/PressureAdvanceModel.ts:39-40 | values at least a thousandth apart stay at least a thousandth apart after three-place rounding |
| Decimal.RoundAway0 | src/lib/TestPatternGenerator.ts:301-304 | `roundDecimal(x, 0)`: a whole number, within one of `x`, away from zero |
| Decimal.RoundAway3 | src/lib/TestPatternGenerator.ts:301-304 | `roundDecimal(x, 3)`: a three-decimal value less than a thousandth from `x`, away from zero |
| Decimal.RoundAway4 | src/lib/TestPatternGenerator.ts:301-304 | `roundDecimal(x, 4)`: a four-decimal value less than a ten-thousandth from `x`, away from zero |
| Decimal.RoundAway4Least | src/lib/TestPatternGenerator.ts:301-304 | for non-negative `x` the result is the least four-decimal value not below `x` |
| Decimal.RoundAway4Symmetric | src/lib/TestPatternGenerator.ts:301-304 | rounding away from zero commutes with negation |
| Settings.ValidateNumber | src/lib/GcodeProcessor.ts:54-61 | no error exactly when the parsed number is finite; at most one error |
| Settings.ValidateRaw | src/lib/GcodeProcessor.ts:42-52 | no error exactly when the number is finite; at most one error |
| Settings.ToolEntryPicksJoined | src/lib/GcodeProcessor.ts:76-77 | tool k of a comma-joined list of comma-free entries picks entry k-1; tool 0 or a tool past the list picks nothing |
| Settings.ToolString | src/lib/GcodeProcessor.ts:67-78 | no tool: the missing-extruder error and no value; fewer entries than the tool number: throws; otherwise it succeeds exactly when the tool picks an entry, giving that entry without its first and last characters, and throws on `undefined.substring` when it picks none |
| Settings.ToolStringReadsQuoted | src/lib/GcodeProcessor.ts:67-78 | values written between quotes and joined with `;` read back as themselves for tools 1 to n; a tool past the list throws the short-list error; tool 0 throws on `undefined.substring` |
| Settings.ToolFloat | src/lib/GcodeProcessor.ts:90-102 | no tool: the missing-extruder error; throws exactly when the list is shorter than the tool number; otherwise `parseFloat` of the entry (`"undefined"` when absent) and its validation |
| Settings.BedShapeOf | src/lib/GcodeProcessor.ts:104-123 | not four corners: the round-bed error; first corner not `0x0`: the origin error; otherwise a rectangle whose width is the third corner's first part, error-free exactly when both sides are finite |
| Settings.BedShapeCorner | src/lib/GcodeProcessor.ts:113-118 | a rectangle takes width and height from the third corner's two parts (the height reads "undefined" without an `x`), and records the width's then the height's validation error |
| Settings.ToValue | src/lib/GcodeProcessor.ts:273-296 | a missing key gives a null value and empty display, with the required-setting error exactly when the descriptor is required; a present key gives the parser's value, errors and describer's display; throws exactly when the parser throws |
| Settings.CatalogueFlags | src/lib/GcodeProcessor.ts:161-217 | a setting is required exactly when it is not one of the five filament retraction overrides or the filament flow limit; each reads the key of its own name except the restart-extra override, which shares the printer's key |
| Settings.ToValuesFrom | src/lib/GcodeProcessor.ts:300-345 | succeeds exactly when every descriptor's setting is read without a throw, and then holds each of them in order |
| Settings.Build | src/lib/GcodeProcessor.ts:298-349 | `perimeter_extruder` is read first without a tool; every other setting is read with the tool it yields; `hasAllSettings` holds exactly when every required key was found; the errors are all settings' errors in order; `hasErrors` iff their count is positive |
| Settings.HasErrorsIffSomeSettingErrs | src/lib/GcodeProcessor.ts:346-348 | `hasErrors` holds exactly when some setting recorded an error |
| Settings.AllErrorsAround | src/lib/GcodeProcessor.ts:346 | the flattened error list holds each setting's errors in place |
| Settings.MissingRequiredSetting | src/lib/GcodeProcessor.ts:283-288 | a missing required setting is null, displays as "", records the required-setting error, and makes the whole set erroneous and incomplete |
| Settings.MissingOptionalSetting | src/lib/GcodeProcessor.ts:289-291 | a missing optional setting is null and records no error |
| Settings.BuildWithoutExtruder | src/lib/GcodeProcessor.ts:68-71 | without `perimeter_extruder` the settings are always built, and every per-tool setting present records the missing extruder instead of a value |
| Settings.BuildThrowsOnlyOnToolLists | src/lib/GcodeProcessor.ts:73-75 | when building throws, some per-tool setting was present |
| Settings.ToolFloatFirstEntry | src/lib/GcodeProcessor.test.ts:73-84 | with tool 1, "42.42,nil" reads as 42.42 with no error and displays in millimetres |
| Settings.ToolFloatSecondEntry | src/lib/GcodeProcessor.test.ts:85-95 | with tool 2, "42.42,nil" reads `NaN` and records the not-a-number error |
| Settings.ToolFloatPastEnd | src/lib/GcodeProcessor.ts:93-95 | with tool 3, "42.42,nil" has too few entries and the read throws |
| Settings.NozzleDescriptor | src/lib/GcodeProcessor.ts:168 | `nozzle_diameter` is a required per-tool float displayed in millimetres |
| GcodeFile.SplitLines | src/lib/GcodeProcessor.ts:402 | as many lines as line-feed pieces; each line but the last drops the one `\r` before its line feed |
| GcodeFile.SplitLinesJoin | src/lib/GcodeProcessor.ts:402 | text without carriage returns comes back by joining its lines with line feeds |
| GcodeFile.SplitLinesHaveNoLineFeed | src/lib/GcodeProcessor.ts:402 | no line contains a line feed |
| GcodeFile.StripTypeCustom | src/lib/GcodeProcessor.ts:410-413 | no `;TYPE:Custom` line remains, and every other line keeps its number of occurrences |
| GcodeFile.StripTypeCustomIdempotent | src/lib/GcodeProcessor.ts:410-413 | stripping twice is stripping once |
| GcodeFile.StripTypeCustomAppend | src/lib/GcodeProcessor.ts:410-413 | stripping distributes over concatenation, so the order of the kept lines is kept |
| GcodeFile.MatchSetting | src/lib/GcodeProcessor.ts:416 | a match is a line `; key = value` with a key of `[a-z0-9_]` and a non-empty single-line value |
| GcodeFile.MatchSettingComplete | src/lib/GcodeProcessor.ts:416 | every such line is matched, with exactly its key and value |
| GcodeFile.ExtractSettings | src/lib/GcodeProcessor.ts:415-427 | a key is in the map exactly when some line sets it |
| GcodeFile.LastSettingWins | src/lib/GcodeProcessor.ts:418-424 | the value stored for a key is that of the last line setting it |
| GcodeFile.FindStartGcode | src/lib/GcodeProcessor.ts:429-438 | fails exactly when `;AFTER_LAYER_CHANGE` is absent; otherwise the lines before its first occurrence |
| GcodeFile.FindEndGcode | src/lib/GcodeProcessor.ts:440-449 | fails exactly when the end marker does not occur after the first line; otherwise the suffix from its last occurrence on |
| GcodeFile.Assemble | src/lib/GcodeProcessor.ts:401-408 | when building the settings throws, no blocks and no errors are recorded; otherwise the blocks found, with a marker error exactly for each block not found |
| GcodeFile.Process | src/lib/GcodeProcessor.ts:401-408 | the processor's lines are the split file without `;TYPE:Custom`; its settings map is extracted from them; the settings are missing exactly when building them throws |
| GcodeFile.CleanFile | src/lib/GcodeProcessor.ts:451-453 | the processor has no errors exactly when the settings were built without error and both blocks were found |
| TempCommand.Match | src/lib/StartEndGcodePrep.ts:7 | a match is an `M109 ` followed on the same line by an `S` and two or three digits |
| TempCommand.MatchFrom | src/lib/StartEndGcodePrep.ts:7 | the leftmost `M109 ` anchor at which the expression matches; every earlier anchor has no match |
| TempCommand.LastS | src/lib/StartEndGcodePrep.ts:7 | the greedy `.*S` settles on the last `S` with two digits in its reach |
| TempCommand.RewriteReplacesDigits | src/lib/StartEndGcodePrep.ts:14 | the rewrite keeps the text up to the `S` and after the digit group, and puts the new temperature in place of the digits |
| TempCommand.RewriteRoundTrip | src/lib/StartEndGcodePrep.ts:14 | when no further digit follows the matched digit group, a two- or three-digit temperature yields a line that matches at the same place, and rewriting that line with the old digits restores the original |
| TempCommand.RewriteTakesLastS | src/lib/StartEndGcodePrep.ts:7-14 | `M109 S215 ;S200` keeps 215 and rewrites the 200 of the comment |
| TempCommand.RewritePlain | src/lib/StartEndGcodePrep.ts:7-14 | `M109 S215` becomes `M109 S230` |
| TempCommand.LastMatchingLine | src/lib/StartEndGcodePrep.ts:10-17 | the last matching line at index 1 or later; line 0 is never considered |
| TempCommand.SetLastTemperature | src/lib/StartEndGcodePrep.ts:10-17 | absent exactly when no line from index 1 matches; otherwise only the last matching line changes, to its rewrite |
| TempCommand.WaitLineMatches | my-svelte-ts-project/src/lib/StartGcodePrep.ts:18-21 | an appended `M109 T<tool> S<temp>` with a two- or three-digit temperature matches, with the temperature as its digit group |
| TempCommand.WaitLineRewrite | my-svelte-ts-project/src/lib/StartGcodePrep.ts:18-21 | rewriting a wait line gives the wait line of the new temperature |
| TempCommand.SpliceBack | src/lib/StartEndGcodePrep.ts:14 | putting the old text back undoes a digit splice |
| StartEndPrep.SetFilamentTemperature | src/lib/StartEndGcodePrep.ts:6-19 | throws the no-`M109` error exactly when no line from index 1 matches; otherwise the last matching line gets the new temperature and no other line changes |
| StartEndPrep.ReplaceM555 | src/lib/StartEndGcodePrep.ts:21-37 | the flag holds exactly when a line from index 1 starts with `M555 `; the last such line becomes the print-area line, and no other line changes |
| StartEndPrep.ReplaceM555Idempotent | src/lib/StartEndGcodePrep.ts:21-37 | replacing a second time changes nothing more |
| StartEndPrep.ExtractThumbnail | src/lib/StartEndGcodePrep.ts:39-48 | the leading run of comment and blank lines, stopping at the first code line |
| StartEndPrep.ThumbnailIsLongest | src/lib/StartEndGcodePrep.ts:39-48 | that run is the only prefix of comment and blank lines that ends at code or at the end |
| StartEndPrep.ThumbnailIdempotent | src/lib/StartEndGcodePrep.ts:39-48 | a thumbnail is its own thumbnail |
| StartEndPrep.Replacements | src/lib/StartEndGcodePrep.ts:60-73 | the seven template variables; both hot-end temperatures are five copies of the test temperature, both bed temperatures five copies of the value passed as bed temperature |
| StartEndPrep.KeptThumbnail | src/lib/StartEndGcodePrep.ts:38-76 | the thumbnail put back after the start lines are cleared: the comment and blank lines before the first code line, and nothing when no line is code, because `extractThumbnail` then returns the very array the splice empties |
| StartEndPrep.KlipperStart | src/lib/StartEndGcodePrep.ts:50-94 | fails exactly when the start template does not evaluate; otherwise: the kept thumbnail, the object definition when the old block mentions `EXCLUDE_OBJECT_DEFINE`, the evaluated template, the velocity override and the object start; the end block gains the object end |
| StartEndPrep.CommentOnlyStartLosesThumbnail | src/lib/StartEndGcodePrep.ts:47-76 | a start block of comment and blank lines only keeps none of them: the rebuilt block is the object definition (when mentioned), the evaluated template, the velocity override and the object start |
| StartEndPrep.KlipperBracketsObject | src/lib/StartEndGcodePrep.ts:88-93 | the rebuilt start block ends with the object start exactly when the end block gained the object end |
| StartEndPrep.PrepareStartEnd | src/lib/StartEndGcodePrep.ts:98-118 | Klipper rebuilds both blocks as KlipperStart states (a code-free start block keeps no thumbnail), fed `first_layer_temperature` as bed temperature; other firmware fails exactly when the temperatures differ and there is no `M109` line to rewrite, keeps the end block and the start block's length, and updates `M555` in the start block as given (equal temperatures) or as rewritten (differing ones) |
| StartEndPrep.OtherLinesUntouched | src/lib/StartEndGcodePrep.ts:98-118 | outside Klipper, a line that is neither a temperature line nor an `M555` line is kept |
| StartEndPrep.FirstLineUntouched | src/lib/StartEndGcodePrep.ts:10-24 | outside Klipper the first start line is never rewritten |
| StartPrep.SetFilamentTemperature | src/lib/StartGcodePrep.ts:5-21 | true with the last `M109` line from index 1 rewritten; otherwise false, with `M109 T<tool> S<temp>` appended |
| StartPrep.AppendedLineIsRewrittenNext | src/lib/StartGcodePrep.ts:5-21 | the appended wait line is found and rewritten in place by the next call, so repeated preparation does not keep appending |
| StartPrep.PrepareStartGcode | src/lib/StartGcodePrep.ts:32-47 | null extruder, first-layer temperature or flavour throw in that order; the temperature step runs exactly when the first-layer and test temperatures differ; Klipper gets the velocity override last |
| StartPrep.PrepareGrowsByAtMostTwo | src/lib/StartGcodePrep.ts:32-47 | the block grows by at most two lines, and without a line to rewrite the old lines stay in front unchanged |
| SvelteStartPrep.UpdateLastTemperatureCommand | my-svelte-ts-project/src/lib/StartGcodePrep.ts:3-16 | true exactly when a line from index 1 matches, then only the last such line is rewritten; otherwise the lines are unchanged |
| SvelteStartPrep.AppendM109 | my-svelte-ts-project/src/lib/StartGcodePrep.ts:18-21 | the old lines followed by the wait line |
| SvelteStartPrep.PrepareStartGcode | my-svelte-ts-project/src/lib/StartGcodePrep.ts:25-30 | grows by one line exactly when nothing could be rewritten, and that line is the wait line after the unchanged lines |
| SvelteStartPrep.AgreesWithFallbackVersion | my-svelte-ts-project/src/lib/StartGcodePrep.ts:25-30 | the rewrite-then-append of this version computes the same lines as the earlier `setFilamentTemperature` with its fallback |
| Configuration.Simple | my-svelte-ts-project/src/lib/TestPatternConfiguration.ts:97-99 | the setting's value and display text, or the null-setting error naming its key |
| Configuration.KlipperGcode | my-svelte-ts-project/src/lib/TestPatternConfiguration.ts:15-25 | a `PRESSURE_ADVANCE EXTRUDER=extruder` prefix, with the tool index appended only for an index above 0 |
| Configuration.ReprapFirmwareGcode | my-svelte-ts-project/src/lib/TestPatternConfiguration.ts:27-34 | the prefix `M572 D<toolIndex> S` |
| Configuration.SelectAdvanceGCodePrefix | my-svelte-ts-project/src/lib/TestPatternConfiguration.ts:60-81 | both settings read first; succeeds exactly for `klipper`, `reprapfirmware` or a flavour containing `marlin`; marlin gets `M572 S` on an input-shaper model (`XL`/`XLn`/`MK4`/`MINI` + `IS`) and `M900 K` otherwise |
| Configuration.PrefixIsAdvanceCommand | my-svelte-ts-project/src/lib/TestPatternConfiguration.ts:60-81 | every selected prefix is a pressure-advance command: `PRESSURE_ADVANCE`, `M572` or `M900` |
| Configuration.Mk4IsGetsM572 | my-svelte-ts-project/src/lib/TestPatternConfiguration.ts:68-75 | a Marlin MK4IS gets `M572 S` (an instance of Configuration.MarlinSelectsByModel) |
| Configuration.MarlinSelectsByModel | my-svelte-ts-project/src/lib/TestPatternConfiguration.ts:68-75 | every marlin flavour, for every model, gets `M572 S` exactly on an input-shaper model and `M900 K` otherwise |
| Configuration.Mk3sGetsM900 | my-svelte-ts-project/src/lib/TestPatternConfiguration.ts:68-80 | a Marlin MK3S gets `M900 K` (an instance of Configuration.MarlinSelectsByModel) |
| Configuration.MaxIndex | my-svelte-ts-project/src/lib/TestPatternConfiguration.ts:110-125 | the scan picks a set value above `Number.MIN_VALUE` that no set value exceeds and no earlier set value equals; none when no set value exceeds `Number.MIN_VALUE` |
| Configuration.MaxExplainedValue | my-svelte-ts-project/src/lib/TestPatternConfiguration.ts:110-125 | throws exactly when no set value exceeds `Number.MIN_VALUE`; otherwise the first of the largest values, with its display text |
| Configuration.NullIsSkipped | my-svelte-ts-project/src/lib/TestPatternConfiguration.ts:113-119 | a null setting never wins |
| Configuration.TieGoesToFirst | my-svelte-ts-project/src/lib/TestPatternConfiguration.ts:115-119 | on a tie the earlier setting wins |
| Configuration.SumExplainedValue | my-svelte-ts-project/src/lib/TestPatternConfiguration.ts:101-108 | throws exactly when some setting is null, naming the first; otherwise the sum of the values, displayed with its unit |
| Configuration.SumOfTwo | my-svelte-ts-project/src/lib/TestPatternConfiguration.ts:101-108 | two finite values sum as reals |
| Configuration.SumOfValue | my-svelte-ts-project/src/lib/TestPatternConfiguration.ts:101-108 | the left-to-right sum is `NaN` when a value is or both infinities occur, the infinity when only one occurs, and otherwise the real sum of the values |
| Configuration.RealSumLast | my-svelte-ts-project/src/lib/TestPatternConfiguration.ts:101-108 | summing from the front equals summing all but the last value and then adding it |
| Configuration.FlowRate | my-svelte-ts-project/src/lib/TestPatternConfiguration.ts:131-137 | the filament's flow limit when positive, else the printer's when positive, else none; any result is positive |
| Configuration.ExplainMaxSpeed | my-svelte-ts-project/src/lib/TestPatternConfiguration.ts:127-148 | both flow settings are read first (a null filament limit throws); no positive limit throws; otherwise the minimum of flow/(width·height) and the infill speed, in mm/s |
| Configuration.FastSpeedIsCapped | my-svelte-ts-project/src/lib/TestPatternConfiguration.ts:141-142 | with finite positive settings the fast speed exceeds neither the infill speed nor the flow-limited speed |
| Configuration.FilamentOverride | my-svelte-ts-project/src/lib/TestPatternConfiguration.ts:150-153 | the filament's override when set, otherwise the printer's setting |
| Configuration.FilamentTemperature | my-svelte-ts-project/src/lib/TestPatternConfiguration.ts:200 | the larger of the temperature and the first-layer temperature, one of the two; throws when neither exceeds `Number.MIN_VALUE` |
| Configuration.MaterialOf | my-svelte-ts-project/src/lib/TestPatternConfiguration.ts:193-209 | succeeds exactly when the eight settings are set and the filament temperature exists; then printer, preset, filament diameter, nozzle, layer height, extrusion width, multiplier and z-hop are each their setting's value under its name and display, the temperature the maximum above; a null printer model throws first |
| Configuration.MotionOf | my-svelte-ts-project/src/lib/TestPatternConfiguration.ts:212-220 | succeeds exactly when the five settings are set and the maximum and fast speed exist; then travel and print accelerations, printing, slow, travel and z speeds are each their setting's value under its name, the test acceleration the largest of five, the fast speed the flow-capped one; a null travel acceleration throws first |
| Configuration.RetractionOf | my-svelte-ts-project/src/lib/TestPatternConfiguration.ts:223-227 | each value prefers the filament's override; the deretraction length is the chosen retraction length plus the chosen restart extra; it throws exactly when one of the four chosen settings is null, naming the first such key in reading order |
| Configuration.BedOf | my-svelte-ts-project/src/lib/TestPatternConfiguration.ts:231-234 | succeeds exactly when the bed shape is set, with its outline and sides |
| Configuration.FanSpeed | my-svelte-ts-project/src/lib/TestPatternConfiguration.ts:237-240 | 0 when the first layers run without fan, otherwise the minimum fan speed |
| Configuration.ToolIndex | my-svelte-ts-project/src/lib/TestPatternConfiguration.ts:242 | throws exactly when `perimeter_extruder` is null; otherwise `perimeter_extruder - 1`, with NaN and the infinities left unchanged |
| Configuration.Build | my-svelte-ts-project/src/lib/TestPatternConfiguration.ts:192-247 | each block is as stated above; the prefix is selected for `perimeter_extruder - 1`; the range model's step and values are taken over; the pattern is unrotated, 25 mm slow, 100 mm fast, centred on the bed |
| Configuration.BuildSucceedsIff | my-svelte-ts-project/src/lib/TestPatternConfiguration.ts:192-247 | the constructor succeeds exactly when every block, the tool index and the pressure-advance command can be read |
| Configuration.BuildFailsAtFirstBlock | my-svelte-ts-project/src/lib/TestPatternConfiguration.ts:192-247 | when a block cannot be read and all blocks before it were, the constructor throws that block's error |
| Configuration.NullFilamentFlowThrows | my-svelte-ts-project/src/lib/TestPatternConfiguration.ts:129 | a null optional filament flow limit makes the whole configuration throw |
| Pattern.RotateX | src/lib/TestPatternGenerator.ts:469-480 | without rotation the x coordinate is unchanged |
| Pattern.RotateY | src/lib/TestPatternGenerator.ts:482-491 | without rotation the y coordinate is unchanged |
| Pattern.Acceleration | src/lib/TestPatternGenerator.ts:332-352 | `M204` with the same value for print and travel, the value of the chosen setting |
| Pattern.AccelerationText | src/lib/TestPatternGenerator.ts:351 | both `M204` parameters print the same text |
| Pattern.DoEfeed | src/lib/TestPatternGenerator.ts:355-362 | `+` un-retracts by the un-retract distance and speed; any other direction retracts by the retract distance and speed |
| Pattern.RetractTextIsNegative | src/lib/TestPatternGenerator.ts:360 | a retraction always prints `G1 E-` |
| Pattern.ZHop | src/lib/TestPatternGenerator.ts:365-367 | a lift to the hop height rounded up to three decimals, at the z travel speed |
| Pattern.FilamentNeverNegative | src/lib/TestPatternGenerator.ts:316 | the printed filament is never negative and does not depend on the line's direction |
| Pattern.MoveTo | src/lib/TestPatternGenerator.ts:324-330 | travel acceleration, a travel move to the target, print acceleration |
| Pattern.UnrotatedMoveLandsOnTarget | src/lib/TestPatternGenerator.ts:326-327 | without rotation a move is written at its target, rounded up by less than a ten-thousandth |
| Pattern.TestLine | src/lib/TestPatternGenerator.ts:381-383 | three extruding segments: slow, fast, slow |
| Pattern.CreateStdPattern | src/lib/TestPatternGenerator.ts:370-391 | the loop with its running offset emits every value's block, then print acceleration |
| Pattern.OffsetIsProduct | src/lib/TestPatternGenerator.ts:371-387 | the running line offset after i values is i line spacings |
| Pattern.PatternLayout | src/lib/TestPatternGenerator.ts:377-385 | value i starts at command 12i: set and show the value rounded to three places, un-retract, test acceleration, the line at `startY + i·spacing`, print acceleration, retract |
| Pattern.PatternMovesToNextLine | src/lib/TestPatternGenerator.ts:386 | after every value but the last the head travels to the next line's start |
| Pattern.PatternEnd | src/lib/TestPatternGenerator.ts:386-389 | 12 commands per value, 9 for the last, and a final print acceleration |
| Pattern.GlyphSegments | src/lib/TestPatternGenerator.ts:402-414 | exactly the digits and the decimal point have strokes |
| Pattern.Advance | src/lib/TestPatternGenerator.ts:452-456 | the pen advances 1 mm after `1` and `.`, 3 mm after every other glyph |
| Pattern.StrokeStep | src/lib/TestPatternGenerator.ts:424-449 | `mup` travels, `dot` prints a 0.4 mm segment above the glyph origin, every other stroke prints a 2 mm segment commented with the character |
| Pattern.StrokeEndsAtNextCounter | src/lib/TestPatternGenerator.ts:424-446 | every stroke but the dot ends where the counters point after it |
| Pattern.DrawGlyph | src/lib/TestPatternGenerator.ts:421-451 | the inner stroke loop computes one pen step per stroke from fresh counters |
| Pattern.CreateGlyphs | src/lib/TestPatternGenerator.ts:394-466 | the character loop computes the glyph commands of the value's text |
| Pattern.GlyphsOf | src/lib/TestPatternGenerator.ts:416-420 | fails with "unknown glyph" exactly when some character has no glyph |
| Pattern.GlyphPathSucceeds | src/lib/TestPatternGenerator.ts:416-420 | the pen path exists exactly when every character has a glyph |
| Pattern.GlyphRetracts | src/lib/TestPatternGenerator.ts:457-461 | a label of n characters retracts exactly n - 1 times: the retract before each repositioning between two characters |
| Pattern.GlyphPathConcat | src/lib/TestPatternGenerator.ts:416-464 | drawing `t + u` draws `t`, repositions to where `t` left the pen, then draws `u`: a character's strokes depend only on the pen position |
| Pattern.EmitNeverLifts | src/lib/TestPatternGenerator.ts:424-461 | drawing glyphs never lifts the nozzle |
| Pattern.LabelsFrom | src/lib/TestPatternGenerator.ts:274-286 | fails exactly when some even-indexed value's label has a character without a glyph |
| Pattern.LabelsIgnoreOddValues | src/lib/TestPatternGenerator.ts:277 | values at odd indices do not affect a single label command |
| Pattern.LabelsLiftTwicePerLabel | src/lib/TestPatternGenerator.ts:279-284 | the labels lift the nozzle exactly twice per even index |
| Pattern.LabelsFromEven | src/lib/TestPatternGenerator.ts:279-284 | an even index prints a move to the label, z hop, un-retract, the glyphs, retract, z hop |
| Pattern.BasicOf | src/lib/TestPatternGenerator.ts:112-158 | every speed is converted from mm/s to mm/min; the centre is the origin or the middle of the bed, a round bed being as deep as wide |
| Pattern.Generate | src/lib/TestPatternGenerator.ts:77-290 | for finite inputs, throws exactly when a label needs a character without a glyph |
| Pattern.GenerateLayout | src/lib/TestPatternGenerator.ts:208-286 | fan and layer-height move first, the test lines from command 30, the reset right after them, the labels last |
| Pattern.FrameSpansTestLines | src/lib/TestPatternGenerator.ts:214-233 | the frame's rails stand where the test lines begin and end, from 3 mm below the first line to beyond the last |
| Pattern.MarksAtFastSegment | src/lib/TestPatternGenerator.ts:248-263 | the two 20 mm reference marks stand where the fast segment starts and ends, above the test lines |
| Pattern.LabelBesideLine | src/lib/TestPatternGenerator.ts:266-279 | label k starts 2 mm right of the end of line k and 2 mm below it |
| Pattern.ResetToSmallestValue | src/lib/TestPatternGenerator.ts:243-246 | after the test lines the advance is set to the first test value, the smallest when the values ascend |
| Pattern.Validate | src/lib/TestPatternGenerator.ts:58-75 | a round bed throws only the round-bed error, any other bed only the rectangular one, each carrying the rounded box; a round bed that passes has a non-negative diameter |
| Pattern.UnrotatedFit | src/lib/TestPatternGenerator.ts:59-74 | unrotated on a rectangular bed, the pattern fits exactly when its sides, rounded up to whole millimetres, fit the bed |
| Pattern.QuarterTurnSwapsSides | src/lib/TestPatternGenerator.ts:62-63 | a quarter turn swaps the box's width and height |
| Pattern.RoundFitBoundsSides | src/lib/TestPatternGenerator.ts:66-69 | a box that fits a round bed also fits the square the diameter spans |
| Pattern.FewerLinesStillFit | src/lib/TestPatternGenerator.ts:58-75 | whatever fits still fits with fewer test values |
| Legacy.SplitToTools | js/ux.js:51-57 | throws exactly when the list is shorter than the tool number; an entry read is an entry of the list |
| Legacy.SplitToToolsPicksEntry | js/ux.js:51-57 | for a comma-joined list, tool k reads entry k - 1 and a tool past the list throws |
| Legacy.SplitToToolsThrowsLikeToolFloat | js/ux.js:51-57 | throws for exactly the tool numbers for which the processor's `parseToolFloat` throws |
| Legacy.ParseBedShape | js/ux.js:80-97 | succeeds exactly for four corners starting at `0x0`, with a `Rect` whose x is the third corner's first part and whose y is its second part, undefined without an `x`; the round-bed error exactly for another corner count |
| Legacy.BedShapeRoundTrip | js/ux.js:80-97 | the shape `0x0,wx0,wxh,0xh` the slicer writes reads back as a `w` by `h` rectangle |
| Legacy.BedShapeLikeProcessor | js/ux.js:80-97 | accepts exactly the beds the processor accepts, with the same error for the same shape, and the processor's sides are the legacy sides parsed |
| Legacy.LoadPrusaSlicerSettings | js/ux.js:329-341 | the loop computes the processor's settings map, the last line for a key winning (the `__proto__` key aside, see "Left out") |
| Legacy.StripTypeCustom | js/ux.js:375-378 | the filter equals the processor's `;TYPE:Custom` removal |
| Legacy.FindObjectStart | js/ux.js:380-388 | fails exactly without `;AFTER_LAYER_CHANGE`; otherwise its first index, where the processor's start block ends |
| Legacy.FindObjectEnd | js/ux.js:390-398 | fails exactly without the end marker after line 0; otherwise the index of its last occurrence, where the processor's end block starts |
| Legacy.UpdateLastTemperatureCommand | js/ux.js:400-413 | throws exactly when no line from index 1 matches; otherwise only the last matching line gets the new temperature |
| Legacy.GenerateTestGCode | js/ux.js:315-323 | start marker, then end marker, then temperature line are required in that order; the text is the start block through its marker with the temperature rewritten, the calibration text, and the end block |
| Legacy.SelectAdvanceGCodePrefix | js/ux.js:287-313 | succeeds exactly for `klipper`, `reprapfirmware`, or a marlin flavour with a model; klipper returns `PRESSURE_ADVANCE EXTRUDER=${extruder} ADVANCE=` and RepRapFirmware `M572 D${toolIndex} S` with their placeholders unfilled, marlin `M572 S` on an input-shaper model and `M900 K` otherwise |
| Legacy.PrefixAgreesOnMarlin | js/ux.js:287-313 | the same flavours succeed as in the TypeScript selection, and marlin flavours get the same command |
| Legacy.KlipperPrefixDiffers | js/ux.js:290-296 | the Klipper text keeps its `${extruder}` placeholder, so it differs from the TypeScript command |
| Legacy.ReprapPrefixDiffers | js/ux.js:297-299 | the RepRapFirmware texts agree only if the tool index prints as `${toolIndex}` |
| Legacy.HasAllSettingsAsWritten | js/ux.js:343-373 | as written: a missing key matters only when element 3 of its entry is truthy |
| Legacy.AsWrittenNeverMissesAnything | js/ux.js:350 | element 3 is always `undefined`, so the check as written never reports a missing setting |
| Legacy.AsWrittenAcceptsEmptyFile | js/ux.js:350 | a file without a single setting passes the check as written, although `printer_model` is required |
| Legacy.HasAllSettings | js/ux.js:343-373 | corrected: every missing key belongs to an entry whose `isRequired` flag (element 2) is false |
| Legacy.CheckRequiredSettings | js/ux.js:343-373 | corrected presence check: reports a missing required key exactly when a required key of the table is missing |
| Legacy.CorrectedRejectsEmptyFile | js/ux.js:368-370 | the corrected check rejects a file without a single setting |

## Left out

- The file reader of the `GcodeProcessor` constructor (src/lib/GcodeProcessor.ts:371-393), `Blob`s, the DOM, the Svelte stores and components, and the progress callback are left out. These are browser I/O. `GcodeFile.Process` starts from the file's text.
- js/ux.js parts that touch the page are left out, as are js/pressure-advance.js, src/lib/NumericField.ts, src/lib/PressureAdvanceStore.ts and src/lib/TestPatternSettingExplainer.ts. They are user-interface code. The explanation texts attached to configuration values are therefore not modelled.
- The commented header block of `generateTestPattern` (src/lib/TestPatternGenerator.ts:169-207) is left out. It is printer, filament, date and settings as comments; the date comes from the clock. `console.log` and `setProgress` are left out too.
- The extrusion ratio (`Math.PI` and `Math.pow`) and the fan duty (`Math.round(FAN_SPEED * 2.55)`) are left out. These are floating-point computations, so `Pattern.PatternInput` takes them as inputs.
- Cosine and sine are the `Trig` parameter. They are transcendental.
- Number/text conversion is the `NumberText` parameter. Finite numbers are exact reals, so IEEE-754 rounding, `-0` and the exact digits printed are not modelled.
- RangeModel.LineCountIsCeiling: stated only for a quotient range/step with at most 20 decimal places, because `Big.div` rounds to 20 places. `RangeModel.CeilingFailsPastTwentyDecimals` shows that the count can fall short of the ceiling otherwise.
- Pattern.RotateX: states only the unrotated case; with rotation the result is the source's formula over the `Trig` oracle.
- Pattern.RotateY: states only the unrotated case, for the same reason.
- Pattern.Validate: its contract states which error is thrown and that the box is non-negative. The fit conditions themselves are stated by `Pattern.UnrotatedFit`, `Pattern.RoundFitBoundsSides` and `Pattern.FewerLinesStillFit`, not for every rotation. It works on the same finite reals, so the big.js invalid-number throw for a NaN or infinite value is not modelled here either.
- Pattern.Generate: its contract states when it throws. The placement of its parts is stated by `Pattern.GenerateLayout` and the lemmas after it. Every input of `Pattern.PatternInput` is a finite real. For a NaN or infinite configuration value, `roundDecimal` (src/lib/TestPatternGenerator.ts:301-304) throws big.js's invalid-number error from `new Big(value)`; that throw is not modelled, so the contract's throw condition holds for finite inputs only.
- Settings.BedShapeOf: its own contract states the width and when errors occur; the height and the exact error list are stated by `Settings.BedShapeCorner`, kept apart so that reasoning about the settings construction stays small.
- Configuration.SelectAdvanceGCodePrefix: `'klipper'.localeCompare(flavour) === 0` (and the same for `reprapfirmware`) is modelled as text equality. Collation can call texts equal that differ only in characters it ignores; that is not modelled.
- Legacy.SelectAdvanceGCodePrefix: the same `localeCompare` tests are modelled as text equality, for the same reason.
- Legacy.LoadPrusaSlicerSettings: js/ux.js stores settings in a plain object, where assigning the key `__proto__` sets the prototype and stores nothing. The model keeps that key like any other. No setting the program reads has that name.
- StartEndPrep.KlipperStart: the source rebuilds `startLines` in place before evaluating the template, so a throw leaves the array half rebuilt. The model returns only the error, not the caller's altered array.
- StartEndPrep.PrepareStartEnd: on the Klipper path the half-rebuilt start lines left by a throw inside `klipperStartGocde` are not modelled; the other path throws before it changes anything.
- StartPrep.PrepareStartGcode: the source rewrites or appends the temperature line (src/lib/StartGcodePrep.ts:39-41) before reading `gcode_flavor`, which may throw (:43). The model's failure carries no lines.
- Legacy.CheckRequiredSettings: models only the presence test. For each present key, js/ux.js:358-360 first runs the key's parser, and `parseBedShape`, `parseToolFloat` and `parseSingleFloat` can throw (a round or offset bed, a short tool list, an entry that parses to NaN); those throws, which come before the missing-key throw, are not part of this member.
- Settings.Build: the describers' display texts are modelled as `Settings.Describe`. No lemma compares them with the source's texts beyond `Settings.ToolFloatFirstEntry`.

Where the code and its documentation or tests differ, the model follows the code:

- The optional `filament_retract_restart_extra` setting reads the key `retract_restart_extra` (src/lib/GcodeProcessor.ts:205).
- When no start line is code, `extractThumbnail` returns the start-line array itself (src/lib/StartEndGcodePrep.ts:47). Clearing that array (:75) clears the thumbnail too, so nothing is put back (`StartEndPrep.CommentOnlyStartLosesThumbnail`).
- The Klipper start template is given `first_layer_temperature`, a hot-end temperature, as its bed temperature (src/lib/StartEndGcodePrep.ts:63).
- `explainMaxSpeed` reads the optional filament flow limit with `toValue()`, which throws when it is null (`Configuration.NullFilamentFlowThrows`).
- The template evaluator splits on the two-character text `\n`, not on line feeds (src/lib/PrusaGcodeTemplateEvaluator.ts:23).
- The template evaluator never checks index 0.
- The template evaluator reads `{x[0]}` as index -1.
- The template evaluator drops the text of a blank `[ ]`.
- The template evaluator does not treat a `[` inside `{...}` as an opener.
- A per-tool entry "nil" parses as `NaN` with an error. The test in src/lib/GcodeProcessor.test.ts:85-95 expects `null`, and calls a function the processor does not define.

## Findings

| source | as written | input that shows it | evidently intended | confidence | as-written member | corrected member |
|---|---|---|---|---|---|---|
| js/ux.js:350 | `checkRequiredSettings` reads the required flag as `settingFunctions[3]`, but each entry holds three elements, so the flag is always `undefined` and no missing setting is ever reported | a settings file with no keys at all: `printer_model`, marked required, is missing, yet the check passes | the flag at index 2, so a missing required setting throws | not executed | Legacy.AsWrittenAcceptsEmptyFile | Legacy.CorrectedRejectsEmptyFile |
