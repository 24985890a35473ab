# eza view options, modelled in Dafny

This project models how eza turns its parsed command-line flags and the
environment into a view configuration (`src/options/view.rs`). It covers:

- the choice of view mode: grid, details, grid-details or lines;
- strict mode's linting of flags that would have no effect;
- the terminal width and the grid-details row threshold;
- the long-view table: size, user and group formats, timestamp columns,
  the time format and the column set;
- the colour-scale options.

Every deduction is a total function of the flag record `Opts`, the
environment `Vars` (a `map<string, string>`), or both. The ones that cannot
fail return a plain value: the size, user and group formats, the grid
options, the luminance and the colour-scale mode. The others return an
`Outcome<T> = Ok(T) | Err(OptionsError) | Abort(message)`. `Abort` stands
for the two `panic!`s of the custom time-format language. The two places
where the source loops and mutates become methods, each proved equal to a
declarative specification that the pure deductions use:

- the colour-scale word loop, `ColorScale.DeduceColorScale`;
- the strict check's walk over the long-only flags,
  `ViewMode.StrictCheckLongFlags`.

Modules:

| module | file | contents |
|---|---|---|
| `Wrappers` | wrappers.dfy | `Option` |
| `Text` | text.dfy | Rust's `str::split` on one character and `str::lines` |
| `Numbers` | numbers.dfy | Rust's decimal parse for unsigned and signed integers, and the decimal rendering it inverts |
| `Options` | options.dfy | `Opts`, the environment and its key constants, `OptionsError`, `Outcome` |
| `TimeStyle` | time_style.dfy | `TimeFormat` and the `+` custom-format language |
| `Table` | table.dfy | size, user and group formats, `TimeTypes`, `Columns`, `TableOptions` |
| `Terminal` | terminal.dfy | `TerminalWidth`, `RowThreshold` |
| `ColorScale` | color_scale.dfy | `ColorScaleOptions` |
| `ViewMode` | view.dfy | grid and details options, `Mode`, strict linting, `View` |
| `Scenarios` | scenarios.dfy | the source's own unit scenarios, each stated as a lemma |

Parameters stand in for collaborators defined elsewhere in the repository:

- `xattrEnabled` is the compile-time `xattr::ENABLED`.
- `flagsOf` is `FlagsFormat::deduce`.
- `fileStyleOf` is `FileStyle::deduce`, with the file-name style as a type
  parameter `S`.
- `terminalHasSize` says whether the terminal reports a size when the
  width is automatic.

Points where the model settles a question the code leaves open, or where
the code and its comments part ways:

- The doc comment of `Mode::deduce` (view.rs:36-39) says the last of
  `--oneline` and `--long` wins. The flag record only holds counts, and
  the code always gives `--long` precedence. The model follows the code;
  see `ViewMode.LongBeatsOneline`.
- `--width 0` means automatic, but `COLUMNS=0` gives `Set(0)` (view.rs:161-169).
  The model keeps this asymmetry: `Terminal.ColumnsWidthRoundTrip` holds
  for `n = 0` too.
- In strict mode `--mounts` is reported as useless on every path without
  `--long`, the tree path included, although the tree view does use it
  (view.rs:99, 132). The model keeps this.
- In the grid-details branch the source computes a grid value that it never
  uses (view.rs:56). The model leaves it out, which changes no result.
- The environment key names (`COLUMNS`, `EZA_GRID_ROWS`, …) are taken to be
  the strings of their constant names. `src/options/vars.rs` is not part of
  this model.

## Model

| member | source | states |
|---|---|---|
| `Text.IndexOf` | src/options/view.rs:462 | the index found holds the separator and no earlier position does; none is found exactly when the separator is absent |
| `Text.IndexOfAfterPrefix` | src/options/view.rs:462 | after a separator-free prefix, the first separator is at the prefix's length |
| `Text.Split` | src/options/view.rs:462 | `str::split` on one character yields at least one piece, and no piece holds the separator |
| `Text.JoinSplit` | src/options/view.rs:462 | splitting loses nothing: rejoining the pieces with the separator gives back the input |
| `Text.SplitJoin` | src/options/view.rs:462 | splitting a join of separator-free pieces gives back exactly those pieces, empty ones included |
| `Text.Lines` | src/options/view.rs:308 | `str::lines` yields no line holding a newline, and yields no lines exactly for empty text |
| `Text.LinesFirst` | src/options/view.rs:308 | the first line runs to the first newline, loses one trailing carriage return, and the rest is split on its own |
| `Text.LinesFirstCRLF` | src/options/view.rs:308 | a line ended by "\r\n" is the line without either character |
| `Text.LinesLast` | src/options/view.rs:308 | text without a newline is one unterminated line |
| `Text.LinesOfUnlines` | src/options/view.rs:308 | `str::lines` inverts writing each newline- and CR-free line with its terminator |
| `Text.FinalNewlineAddsNoLine` | src/options/view.rs:308 | one final newline after an ordinary character adds no empty line |
| `Numbers.ParseUnsigned` | src/options/view.rs:168 | an unsigned parse is an optional '+' and one or more digits, and its value is that of the digits; empty text is the Empty error, all else InvalidDigit |
| `Numbers.ParseSigned` | src/options/view.rs:434-435 | a signed parse also admits '-': a '-' followed by one or more digits parses to the digits' value negated, any other '-' text is an invalid digit, and without '-' it agrees with the unsigned parse |
| `Numbers.ShowNatDigits` | src/options/view.rs:168 | the decimal rendering of a natural number is a non-empty digit string denoting that number |
| `Numbers.ParseShowNat` | src/options/view.rs:168 | the unsigned parse inverts decimal rendering for every natural number |
| `Numbers.ParsePlusShowNat` | src/options/view.rs:168 | a leading '+' is accepted and does not change the value |
| `Numbers.ParseShowInt` | src/options/view.rs:434-435 | the signed parse inverts decimal rendering for every integer, negative ones included |
| `Numbers.UnsignedRejectsMinus` | src/options/view.rs:168 | the unsigned parse rejects a leading '-' as an invalid digit |
| `Options.FirstGiven` | src/options/view.rs:89-105 | no flag name is returned exactly when no flag in the list is given |
| `Options.FirstGivenIsFirst` | src/options/view.rs:89-105 | the name returned is that of the given flag with no given flag before it |
| `Options.GetWithFallback` | src/options/view.rs:183-185 | a value is found exactly when either key is set; the primary key's value wins, and without it the secondary key's lookup is the result |
| `Options.Source` | src/options/view.rs:190-192 | the key reported is set exactly when a value is found, holds that value, is one of the two keys, and is the secondary only when the primary is not set |
| `TimeStyle.StyleWord` | src/options/view.rs:292-299 | the flag's value is taken whatever it is, even empty; otherwise TIME_STYLE is taken unless it is missing or empty |
| `TimeStyle.CustomFormat` | src/options/view.rs:307-338 | the custom language never gives an OptionsError; success gives non-empty, newline-free formats; an abort carries one of the two source messages |
| `TimeStyle.DeduceTimeFormat` | src/options/view.rs:291-342 | no style word gives the default; every error is a bad "time-style" argument naming the word; an abort needs a word starting with '+' |
| `TimeStyle.FlagBeatsEnvironment` | src/options/view.rs:292-294 | with `--time-style` given, the environment plays no part |
| `TimeStyle.EmptyEnvironmentIsDefault` | src/options/view.rs:295-298 | an empty or missing TIME_STYLE gives the default format |
| `TimeStyle.EmptyFlagIsBadArgument` | src/options/view.rs:292-294 | an empty `--time-style` value is not skipped: it is a bad argument |
| `TimeStyle.NamedStyles` | src/options/view.rs:302-306 | the five style words map to their five formats, from the flag or the variable alike |
| `TimeStyle.UnknownWordIsBadArgument` | src/options/view.rs:340 | any other word not starting with '+' is a bad "time-style" argument naming that word |
| `TimeStyle.CustomOnlyFromPlus` | src/options/view.rs:307 | the result is a custom format exactly when the word starts with '+' and the rest is accepted |
| `TimeStyle.PlusIsNotNamed` | src/options/view.rs:301-307 | no word starting with '+' is one of the named styles |
| `TimeStyle.CustomSingleLine` | src/options/view.rs:316-338 | "+fmt" on one line gives that format for every file and none for recent ones |
| `TimeStyle.CustomFinalNewline` | src/options/view.rs:330-336 | "+fmt\n" has no recent-files format: the final newline adds no line |
| `TimeStyle.CustomTwoLines` | src/options/view.rs:316-338 | "+first\nrecent" gives both formats, with a "\r\n" line end stripped from the first |
| `TimeStyle.CustomLaterLinesIgnored` | src/options/view.rs:330-338 | lines after the second have no effect |
| `TimeStyle.CustomEmptyFirstLineAborts` | src/options/view.rs:316-318 | nothing after '+', or a first line that is empty once its `\n` or `\r\n` ending is removed, aborts with the non-recent message |
| `TimeStyle.CustomEmptySecondLineAborts` | src/options/view.rs:330-332 | a second line that is empty once its `\n` or `\r\n` ending is removed, after a non-empty first line, aborts with the recent-files message |
| `Table.DeduceSizeFormat` | src/options/view.rs:277-286 | binary exactly when `--binary`; plain bytes exactly when `--bytes` without it; decimal exactly when neither |
| `Table.DeduceUserFormat` | src/options/view.rs:346-353 | numeric exactly when `--numeric` is given |
| `Table.DeduceGroupFormat` | src/options/view.rs:357-364 | smart exactly when `--smart-group` is given |
| `Table.DeduceTimeTypes` | src/options/view.rs:378-427 | `--no-time` switches every column off; a `--time` word with an individual flag is useless, naming the first such flag; a word alone selects exactly one column or is a bad argument; flags alone select themselves; nothing gives modified only |
| `Table.TimeWordVocabulary` | src/options/view.rs:404-414 | each word and its abbreviation select their own column, and every other word is a bad "time" argument |
| `Table.DeduceColumns` | src/options/view.rs:223-265 | the columns fail exactly when the time types do; the two sub-directory git columns are never both on; `--no-git` or either override variable turns all git columns off, and otherwise each follows its flag, with repos beating repos-no-status; permissions, size and user are on exactly without their `--no-` flag; the security context needs xattr support |
| `Table.DeduceTable` | src/options/view.rs:203-220 | a time-format failure wins, then a columns failure; success assembles the six leaves as deduced; no failure is strict linting, and once the time format is deduced nothing aborts |
| `Terminal.DeduceTerminalWidth` | src/options/view.rs:160-178 | a width flag of at least 1 is used and one below 1 means automatic; without it a parsable COLUMNS is used, an unparsable one is a parse failure attributed to COLUMNS, and a missing one means automatic; it never aborts |
| `Terminal.WidthFlagBeatsColumns` | src/options/view.rs:161-166 | with a width flag the environment is irrelevant and the result never fails |
| `Terminal.ColumnsWidthRoundTrip` | src/options/view.rs:167-169 | any width written out in decimal in COLUMNS is the width used |
| `Terminal.DeduceRowThreshold` | src/options/view.rs:182-200 | always-grid exactly when both row variables are absent; a minimum is the parsed value of the variable found; a failure names the key that supplied the unparsable value |
| `Terminal.RowThresholdPrimaryWins` | src/options/view.rs:183-188 | EZA_GRID_ROWS supplies the threshold whenever it is set |
| `Terminal.RowThresholdLegacyFallback` | src/options/view.rs:183-188 | with only EXA_GRID_ROWS set, it supplies the threshold |
| `ColorScale.MinLuminance` | src/options/view.rs:432-439 | the luminance is always within -100..100; anything but 40 is the parsed variable, and an in-range parse is always used |
| `ColorScale.LuminanceRoundTrip` | src/options/view.rs:432-439 | an in-range luminance written out in decimal is used as it is, and an out-of-range one falls back to 40 |
| `ColorScale.LuminanceLegacyFallback` | src/options/view.rs:433 | EXA_MIN_LUMINANCE is read when EZA_MIN_LUMINANCE is absent |
| `ColorScale.ModeOf` | src/options/view.rs:441-444 | the scale mode mirrors the flag's mode |
| `ColorScale.FirstUnknownWord` | src/options/view.rs:462-475 | no word is reported exactly when every word is a scale word; a reported word is in the list and is not a scale word |
| `ColorScale.FirstUnknownWordAppend` | src/options/view.rs:462-475 | extending the list by one word reports the earlier unknown word if any, else the new word when it is unknown |
| `ColorScale.FirstUnknownWordPrefix` | src/options/view.rs:470-473 | the first unknown word of a prefix is the first unknown word of the whole list |
| `ColorScale.ColorScaleFor` | src/options/view.rs:431-478 | the colour-scale options never abort; they succeed exactly when no `--color-scale` is given or every word is a scale word; a failure is a bad "color-scale" argument naming the first unknown word; success carries the flag's mode and the deduced luminance, and nothing is scaled without the flag |
| `ColorScale.DeduceColorScale` | src/options/view.rs:431-478 | the record-building loop with early exit computes exactly the declarative colour-scale result: the first unknown word is a bad "color-scale" argument; otherwise size is on exactly when "size" or "all" is listed, and age exactly when "age" or "all" is |
| `ColorScale.ColorScaleDefaults` | src/options/view.rs:446-460 | the luminance is in range and the mode mirrors the flag; without `--color-scale` nothing is scaled; every failure is a bad "color-scale" argument naming a non-scale word; it never aborts |
| `ColorScale.ColorScaleOrderFree` | src/options/view.rs:462-477 | lists with the same words, in any order and with any repetition, give the same verdict and the same options |
| `ColorScale.EmptyWordRejected` | src/options/view.rs:470-473 | an empty word from a stray comma is never accepted |
| `ColorScale.ScaleWordHasNoComma` | src/options/view.rs:464-469 | no scale word contains a comma |
| `ColorScale.TrailingCommaRejected` | src/options/view.rs:462-473 | scale words followed by a trailing comma give a bad argument naming the empty word |
| `ViewMode.DeduceGrid` | src/options/view.rs:117-123 | the grid runs across exactly when `--across` is given |
| `ViewMode.LongOnlyFlags` | src/options/view.rs:89-100 | the ten long-only flags, in the fixed order strict mode reports them |
| `ViewMode.LongFlagsComplaint` | src/options/view.rs:86-114 | a complaint is always "long" linting; the first given long-only flag is the complaint; without one, `--git` without `--no-git` is the complaint, and after that `--level` without `--recurse` or `--tree`; there is none exactly when none of these holds |
| `ViewMode.StrictCheckLongFlags` | src/options/view.rs:86-114 | the early-return loop over the fixed flag list, then the git and level checks, compute exactly the declarative complaint |
| `ViewMode.DeduceTree` | src/options/view.rs:126-137 | tree details have no table and no header; they never abort and fail exactly when the colour scale does; xattr and security attributes need xattr support; mounts follows its flag |
| `ViewMode.DeduceLong` | src/options/view.rs:139-156 | under strict mode `--across` without `--grid` is rejected first, then `--oneline`; otherwise the table's failure is the result, then the colour scale's, and when both succeed so does the long view; linting errors arise only under strict mode; success carries the table and the colour scale as deduced; the header, xattr, security attributes and mounts follow their flags |
| `ViewMode.DeduceMode` | src/options/view.rs:43-84 | without mode flags the result is a grid, always so when lenient; with `--long` the long details' failure is the result, else details holding them, or with `--grid` the row threshold's failure or grid-details holding both; without `--long` a strict complaint is the result, else `--tree` gives DeduceTree's failure or details holding its value, then `--oneline` gives lines, else a grid; lenient results carry no linting error |
| `ViewMode.DeduceView` | src/options/view.rs:17-31 | the mode's failure comes first, then the width's, then the file style's; when all three succeed so does the view, holding the mode, the width and the file style, which is told whether a width is known; link dereferencing and total sizes follow their flags |
| `ViewMode.LongEmptyCustomFormatAborts` | src/options/view.rs:139-156 | a long view with `--time-style=+` and no strict complaint aborts with the empty-format message |
| `ViewMode.LongBadTimeWord` | src/options/view.rs:139-156 | with no time style from the flag or the environment, no `--no-time` and no individual time flag, a long view with a `--time` word outside the vocabulary and no strict complaint fails with that bad "time" argument |
| `ViewMode.StrictOnlyAddsLinting` | src/options/view.rs:43-84 | strict mode agrees with lenient mode except where it fails with a "long" linting error |
| `ViewMode.LoneLongOnly` | src/options/view.rs:89-100 | an option record with exactly the chosen long-only flag given, and no mode flag |
| `ViewMode.LoneLongOnlyFlag` | src/options/view.rs:44-50 | any single long-only flag is reported by name under strict mode and ignored otherwise, giving the plain grid |
| `ViewMode.LongFlagsComplaintOrder` | src/options/view.rs:89-105 | an earlier given long-only flag hides every later one |
| `ViewMode.StrictGitAndLevel` | src/options/view.rs:107-111 | without mode or long-only flags, strict mode rejects `--git` unless `--no-git` is given, then `--level` unless `--recurse` is given, and otherwise chooses the grid |
| `ViewMode.LongViewSucceeds` | src/options/view.rs:53-66 | leniently, `--long` succeeds exactly when the table, the colour scale and, with `--grid`, the row threshold do; the grid-details threshold is the deduced one |
| `ViewMode.LongBeatsOneline` | src/options/view.rs:53-66 | without `--grid`, `--long` with `--oneline` gives details when lenient, and under strict mode (and without `--across`) is rejected as a useless one-line flag |
| `Scenarios.TimeTypesScenarios` | src/options/view.rs:489-644 | the source's time-types scenarios: no-time, default, the four words and the four flags |
| `Scenarios.FormatScenarios` | src/options/view.rs:647-718 | the group, user, size and grid scenarios |
| `Scenarios.TimeStyleScenarios` | src/options/view.rs:721-915 | the named-style scenarios, from flag and variable, and the bad "nice"; the match is case-sensitive |
| `Scenarios.CustomStyleFromEnvironment` | src/options/view.rs:837-853 | "+%Y-%b-%d" in TIME_STYLE is a single custom format |
| `Scenarios.CustomStyleFromFlag` | src/options/view.rs:855-872 | "+%Y-%b-%d" as the flag's value is a single custom format |
| `Scenarios.CustomStyleRecentAndNonRecent` | src/options/view.rs:875-895 | a two-line custom style gives the non-recent and the recent format |
| `Scenarios.SplitSizeAge` | src/options/view.rs:462 | "size,age" splits into the two words |
| `Scenarios.ColorScaleSizeAgeDefaultLuminance` | src/options/view.rs:918-937 | "size,age" without variables scales both, at luminance 40, gradient |
| `Scenarios.ColorScaleSizeLuminance60` | src/options/view.rs:940-961 | "size" with luminance 60 |
| `Scenarios.ColorScaleAgeLuminance60Fixed` | src/options/view.rs:964-986 | "age" with luminance 60 and the fixed mode |
| `Scenarios.ColorScaleSizeAgeLuminance99Fixed` | src/options/view.rs:989-1011 | "size,age" with luminance 99 and the fixed mode |
| `Scenarios.ModeScenarios` | src/options/view.rs:1014-1194 | the grid mode scenarios, and strict long views rejecting across and one-line |
| `Scenarios.TreeScenarios` | src/options/view.rs:1062-1158 | the four tree-details scenarios, plain, with mounts, with extended attributes and with security context, each as the whole details record |
| `Scenarios.TerminalWidthScenarios` | src/options/view.rs:1197-1255 | automatic, the flag's 80, COLUMNS "80", and COLUMNS "bad" as an invalid-digit parse failure |

## Left out

- Integer widths: widths, row counts and luminance are unbounded integers. The `usize`/`isize` limits and the overflow errors of Rust's parse are not modelled, so a too-long digit string parses here.
- The `ParseIntError` payload is reduced to its kind: empty or invalid digit.
- OsString and UTF-8: every value is a string. A variable that is not valid UTF-8, which the source treats as absent for COLUMNS and the row threshold, cannot arise. Lossy conversion is not modelled.
- `FileStyle::deduce`, `FlagsFormat::deduce` and `actual_terminal_width` are defined outside this file. They become the parameters `fileStyleOf`, `flagsOf` and `terminalHasSize`.
- `xattr::ENABLED` is a compile-time constant, modelled as the parameter `xattrEnabled`.
- The argument parser that builds `Opts` and the process environment are external. `Opts` is a datatype of occurrence counts and optional values, and the environment is an in-memory map.
- Argument order: `Opts` keeps no order, so "the last flag wins" cannot be stated.
- Custom time-format strings are stored verbatim. Their chrono interpretation is not modelled.
- The two `panic!`s of the custom language are the `Abort` outcome, which the deductions propagate like an error, not a process exit.
- `Text.Lines` follows the current `str::lines`: a bare '\r' at the end of an unterminated last line is kept. Older Rust releases stripped it.
