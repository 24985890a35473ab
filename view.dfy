/** The view mode and the whole view configuration: which of grid, details,
    grid-details or lines to use, strict mode's linting of flags that would
    have no effect, and the details options of the long and tree views. */
module ViewMode {
  import opened Wrappers
  import opened Options
  import opened Table
  import opened TimeStyle
  import opened ColorScale
  import opened Terminal

  datatype GridOptions = GridOptions(across: bool)

  datatype DetailsOptions = DetailsOptions(
    table: Option<TableOptions>, header: bool, xattr: bool, secattr: bool, mounts: bool,
    colorScale: ColorScaleOptions)

  datatype GridDetailsOptions = GridDetailsOptions(details: DetailsOptions, rowThreshold: RowThreshold)

  datatype Mode =
    | Grid(grid: GridOptions)
    | Details(details: DetailsOptions)
    | GridDetails(gridDetails: GridDetailsOptions)
    | Lines

  /** The resolved view; the file-name style `S` comes from a collaborator
      this model does not include. */
  datatype View<S> = View(mode: Mode, width: TerminalWidth, fileStyle: S, derefLinks: bool, totalSize: bool)

  predicate AnyModeFlag(o: Opts)
  {
    o.long > 0 || o.oneline > 0 || o.grid > 0 || o.tree > 0
  }

  function DeduceGrid(o: Opts): (r: GridOptions)
    ensures r.across <==> o.across > 0
  {
    GridOptions(o.across > 0)
  }

  /** The flags that only mean something in a long view, in the order
      strict mode reports them. */
  const LongOnlyFlagNames := ["binary", "bytes", "inode", "links", "header", "blocksize", "time", "group", "numeric", "mounts"]

  function LongOnlyFlags(o: Opts): (r: seq<(bool, string)>)
    ensures |r| == |LongOnlyFlagNames|
    ensures forall i :: 0 <= i < |r| ==> r[i].1 == LongOnlyFlagNames[i]
  {
    [(o.binary > 0, "binary"), (o.bytes > 0, "bytes"), (o.inode > 0, "inode"),
     (o.links > 0, "links"), (o.header > 0, "header"), (o.blocksize > 0, "blocksize"),
     (o.time.Some?, "time"), (o.group > 0, "group"), (o.numeric > 0, "numeric"),
     (o.mounts > 0, "mounts")]
  }

  /** What strict mode objects to when no long view is chosen: the first
      long-only flag given; else `--git` without `--no-git`; else `--level`
      without `--recurse` or `--tree`. */
  function LongFlagsComplaint(o: Opts): (r: Option<OptionsError>)
    ensures r.Some? ==> IsLongLint(r.value)
    ensures FirstGiven(LongOnlyFlags(o)).Some? ==> r == Some(Useless(FirstGiven(LongOnlyFlags(o)).value, false, "long"))
    ensures FirstGiven(LongOnlyFlags(o)).None? && o.git > 0 && o.noGit == 0 ==>
      r == Some(Useless("git", false, "long"))
    ensures FirstGiven(LongOnlyFlags(o)).None? && !(o.git > 0 && o.noGit == 0) &&
            o.level.Some? && o.recurse == 0 && o.tree == 0 ==>
      r == Some(Useless2("level", "recurse", "tree"))
    ensures r.None? <==>
      (forall i :: 0 <= i < |LongOnlyFlags(o)| ==> !LongOnlyFlags(o)[i].0) &&
      !(o.git > 0 && o.noGit == 0) && !(o.level.Some? && o.recurse == 0 && o.tree == 0)
  {
    match FirstGiven(LongOnlyFlags(o))
    case Some(name) => Some(Useless(name, false, "long"))
    case None =>
      if o.git > 0 && o.noGit == 0 then Some(Useless("git", false, "long"))
      else if o.level.Some? && o.recurse == 0 && o.tree == 0 then Some(Useless2("level", "recurse", "tree"))
      else None
  }

  /** The check walks the fixed list of long-only flags and returns at the
      first one given, then looks at the git and level flags. */
  method StrictCheckLongFlags(o: Opts) returns (complaint: Option<OptionsError>)
    ensures complaint == LongFlagsComplaint(o)
  {
    var options := LongOnlyFlags(o);
    for i := 0 to |options|
      invariant FirstGiven(options[i..]) == FirstGiven(options)
    {
      var (given, name) := options[i];
      assert options[i..][1..] == options[i + 1..];
      if given {
        return Some(Useless(name, false, "long"));
      }
    }
    if o.git > 0 && o.noGit == 0 {
      return Some(Useless("git", false, "long"));
    } else if o.level.Some? && o.recurse == 0 && o.tree == 0 {
      return Some(Useless2("level", "recurse", "tree"));
    }
    return None;
  }

  /** The details of a tree view without `--long`: no table, no header. */
  function DeduceTree(o: Opts, vars: Vars, xattrEnabled: bool): (r: Outcome<DetailsOptions>)
    ensures r.Ok? <==> ColorScaleFor(o, vars).Ok?
    ensures r.Err? ==> r.error == ColorScaleFor(o, vars).error
    ensures !r.Abort?
    ensures r.Ok? ==> r.value.table.None? && !r.value.header
    ensures r.Ok? ==> r.value.colorScale == ColorScaleFor(o, vars).value
    ensures r.Ok? ==> (r.value.xattr <==> xattrEnabled && o.extended > 0) &&
                      (r.value.secattr <==> xattrEnabled && o.securityContext > 0) &&
                      (r.value.mounts <==> o.mounts > 0)
  {
    var colorScale :- ColorScaleFor(o, vars);
    Ok(DetailsOptions(
      table := None, header := false,
      xattr := xattrEnabled && o.extended > 0, secattr := xattrEnabled && o.securityContext > 0,
      mounts := o.mounts > 0, colorScale := colorScale))
  }

  /** The details of a long view. Strict mode first rejects `--across`
      without `--grid`, then `--oneline`; the table is always present. */
  function DeduceLong(o: Opts, vars: Vars, strict: bool, xattrEnabled: bool, flagsOf: Vars -> FlagsFormat): (r: Outcome<DetailsOptions>)
    ensures strict && o.across > 0 && o.grid == 0 ==> r == Err(Useless("across", true, "long"))
    ensures strict && !(o.across > 0 && o.grid == 0) && o.oneline > 0 ==> r == Err(Useless("one-line", true, "long"))
    ensures !strict ==> NotLongLint(r)
    ensures r.Err? && IsLongLint(r.error) ==> strict
    ensures r.Ok? ==> DeduceTable(o, vars, xattrEnabled, flagsOf).Ok? &&
                      r.value.table == Some(DeduceTable(o, vars, xattrEnabled, flagsOf).value)
    ensures r.Ok? ==> ColorScaleFor(o, vars).Ok? && r.value.colorScale == ColorScaleFor(o, vars).value
    ensures r.Ok? ==> (r.value.header <==> o.header > 0)
    ensures r.Ok? ==> (r.value.xattr <==> xattrEnabled && o.extended > 0) &&
                      (r.value.secattr <==> xattrEnabled && o.securityContext > 0) &&
                      (r.value.mounts <==> o.mounts > 0)
    ensures !strict ==> (r.Ok? <==> DeduceTable(o, vars, xattrEnabled, flagsOf).Ok? && ColorScaleFor(o, vars).Ok?)
    ensures !(strict && ((o.across > 0 && o.grid == 0) || o.oneline > 0)) ==>
      && (DeduceTable(o, vars, xattrEnabled, flagsOf).IsFailure() ==>
            r == DeduceTable(o, vars, xattrEnabled, flagsOf).PropagateFailure())
      && (DeduceTable(o, vars, xattrEnabled, flagsOf).Ok? && ColorScaleFor(o, vars).IsFailure() ==>
            r == ColorScaleFor(o, vars).PropagateFailure())
      && (DeduceTable(o, vars, xattrEnabled, flagsOf).Ok? && ColorScaleFor(o, vars).Ok? ==> r.Ok?)
  {
    if strict && o.across > 0 && o.grid == 0 then Err(Useless("across", true, "long"))
    else if strict && o.oneline > 0 then Err(Useless("one-line", true, "long"))
    else
      var table :- DeduceTable(o, vars, xattrEnabled, flagsOf);
      var colorScale :- ColorScaleFor(o, vars);
      Ok(DetailsOptions(
        table := Some(table), header := o.header > 0,
        xattr := xattrEnabled && o.extended > 0, secattr := xattrEnabled && o.securityContext > 0,
        mounts := o.mounts > 0, colorScale := colorScale))
  }

  /** The view mode, by priority: with no mode flag, a grid (after strict
      linting); `--long` gives details, or grid-details with `--grid`; then
      (after strict linting) `--tree` gives table-less details, `--oneline`
      gives lines, and anything else a grid. */
  function DeduceMode(o: Opts, vars: Vars, strict: bool, xattrEnabled: bool, flagsOf: Vars -> FlagsFormat): (r: Outcome<Mode>)
    ensures !AnyModeFlag(o) && !strict ==> r == Ok(Grid(GridOptions(o.across > 0)))
    ensures !AnyModeFlag(o) && r.Ok? ==> r.value == Grid(GridOptions(o.across > 0))
    ensures o.long > 0 && r.Ok? ==>
      (r.value.GridDetails? <==> o.grid > 0) && (r.value.Details? <==> o.grid == 0) &&
      (r.value.Details? ==> r.value.details.table.Some?) &&
      (r.value.GridDetails? ==> r.value.gridDetails.details.table.Some?)
    ensures o.long == 0 && o.tree > 0 && r.Ok? ==>
      r.value.Details? && r.value.details.table.None? && !r.value.details.header
    ensures o.long == 0 && o.tree == 0 && o.oneline > 0 && r.Ok? ==> r.value == Lines
    ensures o.long == 0 && o.tree == 0 && o.oneline == 0 && r.Ok? ==> r.value == Grid(GridOptions(o.across > 0))
    ensures !strict ==> NotLongLint(r)
    ensures strict && o.long == 0 && LongFlagsComplaint(o).Some? ==> r == Err(LongFlagsComplaint(o).value)
    ensures o.long > 0 && DeduceLong(o, vars, strict, xattrEnabled, flagsOf).IsFailure() ==>
      r == DeduceLong(o, vars, strict, xattrEnabled, flagsOf).PropagateFailure()
    ensures o.long > 0 && o.grid == 0 && DeduceLong(o, vars, strict, xattrEnabled, flagsOf).Ok? ==>
      r == Ok(Details(DeduceLong(o, vars, strict, xattrEnabled, flagsOf).value))
    ensures o.long > 0 && o.grid > 0 && DeduceLong(o, vars, strict, xattrEnabled, flagsOf).Ok? ==>
      && (DeduceRowThreshold(vars).IsFailure() ==> r == DeduceRowThreshold(vars).PropagateFailure())
      && (DeduceRowThreshold(vars).Ok? ==>
            r == Ok(GridDetails(GridDetailsOptions(DeduceLong(o, vars, strict, xattrEnabled, flagsOf).value,
                                                   DeduceRowThreshold(vars).value))))
    ensures o.long == 0 && o.tree > 0 && !(strict && LongFlagsComplaint(o).Some?) ==>
      && (DeduceTree(o, vars, xattrEnabled).IsFailure() ==> r == DeduceTree(o, vars, xattrEnabled).PropagateFailure())
      && (DeduceTree(o, vars, xattrEnabled).Ok? ==> r == Ok(Details(DeduceTree(o, vars, xattrEnabled).value)))
    ensures o.long == 0 && o.tree == 0 && o.oneline > 0 && !(strict && LongFlagsComplaint(o).Some?) ==> r == Ok(Lines)
    ensures o.long == 0 && o.tree == 0 && o.oneline == 0 && !(strict && LongFlagsComplaint(o).Some?) ==>
      r == Ok(Grid(GridOptions(o.across > 0)))
  {
    if !AnyModeFlag(o) then
      if strict && LongFlagsComplaint(o).Some? then Err(LongFlagsComplaint(o).value)
      else Ok(Grid(DeduceGrid(o)))
    else if o.long > 0 then
      var details :- DeduceLong(o, vars, strict, xattrEnabled, flagsOf);
      if o.grid > 0 then
        var rowThreshold :- DeduceRowThreshold(vars);
        Ok(GridDetails(GridDetailsOptions(details, rowThreshold)))
      else Ok(Details(details))
    else if strict && LongFlagsComplaint(o).Some? then Err(LongFlagsComplaint(o).value)
    else if o.tree > 0 then
      var details :- DeduceTree(o, vars, xattrEnabled);
      Ok(Details(details))
    else if o.oneline > 0 then Ok(Lines)
    else Ok(Grid(DeduceGrid(o)))
  }

  /** The whole view: the mode first, then the terminal width, then the
      file-name style, which learns whether a width is known; the first
      failure is the result. */
  function DeduceView<S>(o: Opts, vars: Vars, strict: bool, xattrEnabled: bool, flagsOf: Vars -> FlagsFormat,
                         terminalHasSize: bool, fileStyleOf: (Opts, Vars, bool) -> Outcome<S>): (r: Outcome<View<S>>)
    ensures DeduceMode(o, vars, strict, xattrEnabled, flagsOf).IsFailure() ==>
      r == DeduceMode(o, vars, strict, xattrEnabled, flagsOf).PropagateFailure()
    ensures DeduceMode(o, vars, strict, xattrEnabled, flagsOf).Ok? && DeduceTerminalWidth(o, vars).IsFailure() ==>
      r == DeduceTerminalWidth(o, vars).PropagateFailure()
    ensures r.Ok? ==>
      r.value.mode == DeduceMode(o, vars, strict, xattrEnabled, flagsOf).value &&
      r.value.width == DeduceTerminalWidth(o, vars).value &&
      fileStyleOf(o, vars, r.value.width.Set? || terminalHasSize) == Ok(r.value.fileStyle)
    ensures r.Ok? ==> (r.value.derefLinks <==> o.dereference > 0) && (r.value.totalSize <==> o.totalSize > 0)
    ensures DeduceMode(o, vars, strict, xattrEnabled, flagsOf).Ok? && DeduceTerminalWidth(o, vars).Ok? ==>
      var style := fileStyleOf(o, vars, DeduceTerminalWidth(o, vars).value.Set? || terminalHasSize);
      && (style.IsFailure() ==> r == style.PropagateFailure())
      && (style.Ok? ==> r.Ok?)
  {
    var mode :- DeduceMode(o, vars, strict, xattrEnabled, flagsOf);
    var width :- DeduceTerminalWidth(o, vars);
    var fileStyle :- fileStyleOf(o, vars, width.Set? || terminalHasSize);
    Ok(View(mode, width, fileStyle, o.dereference > 0, o.totalSize > 0))
  }

  /** Strict mode only adds "long" linting errors: whenever the strict
      deduction does not fail with one, it agrees with the lenient one. */
  lemma StrictOnlyAddsLinting(o: Opts, vars: Vars, xattrEnabled: bool, flagsOf: Vars -> FlagsFormat)
    ensures var strict := DeduceMode(o, vars, true, xattrEnabled, flagsOf);
      strict == DeduceMode(o, vars, false, xattrEnabled, flagsOf) || (strict.Err? && IsLongLint(strict.error))
  {
  }

  /** The option record with no flag given but the `k`-th long-only one. */
  function LoneLongOnly(k: nat): (r: Opts)
    requires k < |LongOnlyFlagNames|
    ensures forall j :: 0 <= j < |LongOnlyFlagNames| ==> (LongOnlyFlags(r)[j].0 <==> j == k)
    ensures !AnyModeFlag(r)
  {
    var o := DefaultOpts;
    match k
    case 0 => o.(binary := 1)
    case 1 => o.(bytes := 1)
    case 2 => o.(inode := 1)
    case 3 => o.(links := 1)
    case 4 => o.(header := 1)
    case 5 => o.(blocksize := 1)
    case 6 => o.(time := Some("modified"))
    case 7 => o.(group := 1)
    case 8 => o.(numeric := 1)
    case _ => o.(mounts := 1)
  }

  /** Any single long-only flag given on its own is reported by name in
      strict mode, and is silently ignored otherwise. */
  lemma LoneLongOnlyFlag(vars: Vars, xattrEnabled: bool, flagsOf: Vars -> FlagsFormat, k: nat)
    requires k < |LongOnlyFlagNames|
    ensures DeduceMode(LoneLongOnly(k), vars, true, xattrEnabled, flagsOf) ==
      Err(Useless(LongOnlyFlagNames[k], false, "long"))
    ensures DeduceMode(LoneLongOnly(k), vars, false, xattrEnabled, flagsOf) == Ok(Grid(GridOptions(false)))
  {
    FirstGivenIsFirst(LongOnlyFlags(LoneLongOnly(k)), k);
  }

  /** An earlier long-only flag in the list hides every later one, and the
      git and level flags are only looked at when no long-only flag is given. */
  lemma LongFlagsComplaintOrder(o: Opts, k: nat)
    requires k < |LongOnlyFlagNames| && LongOnlyFlags(o)[k].0
    requires forall j :: 0 <= j < k ==> !LongOnlyFlags(o)[j].0
    ensures LongFlagsComplaint(o) == Some(Useless(LongOnlyFlagNames[k], false, "long"))
  {
    FirstGivenIsFirst(LongOnlyFlags(o), k);
  }

  /** Without a mode flag or a long-only flag, strict mode rejects `--git`
      unless `--no-git` is given, then `--level` unless `--recurse` or
      `--tree` is; otherwise it chooses the grid. */
  lemma StrictGitAndLevel(o: Opts, vars: Vars, xattrEnabled: bool, flagsOf: Vars -> FlagsFormat)
    requires !AnyModeFlag(o) && forall i :: 0 <= i < |LongOnlyFlags(o)| ==> !LongOnlyFlags(o)[i].0
    ensures o.git > 0 && o.noGit == 0 ==>
      DeduceMode(o, vars, true, xattrEnabled, flagsOf) == Err(Useless("git", false, "long"))
    ensures !(o.git > 0 && o.noGit == 0) && o.level.Some? && o.recurse == 0 ==>
      DeduceMode(o, vars, true, xattrEnabled, flagsOf) == Err(Useless2("level", "recurse", "tree"))
    ensures !(o.git > 0 && o.noGit == 0) && !(o.level.Some? && o.recurse == 0) ==>
      DeduceMode(o, vars, true, xattrEnabled, flagsOf) == Ok(Grid(GridOptions(o.across > 0)))
  {
  }

  /** With `--long`, the long-only flags are never linted, and the view
      succeeds exactly when the table, the colour scale and (with `--grid`)
      the row threshold all do, in the lenient mode. */
  lemma LongViewSucceeds(o: Opts, vars: Vars, xattrEnabled: bool, flagsOf: Vars -> FlagsFormat)
    requires o.long > 0
    ensures DeduceMode(o, vars, false, xattrEnabled, flagsOf).Ok? <==>
      && DeduceTable(o, vars, xattrEnabled, flagsOf).Ok?
      && ColorScaleFor(o, vars).Ok?
      && (o.grid > 0 ==> DeduceRowThreshold(vars).Ok?)
    ensures o.grid > 0 && DeduceMode(o, vars, false, xattrEnabled, flagsOf).Ok? ==>
      DeduceMode(o, vars, false, xattrEnabled, flagsOf).value.gridDetails.rowThreshold == DeduceRowThreshold(vars).value
  {
  }

  /** `--long` takes precedence over `--oneline` whatever their order: the
      lenient deduction chooses details, the strict one rejects one-line. */
  lemma LongBeatsOneline(o: Opts, vars: Vars, xattrEnabled: bool, flagsOf: Vars -> FlagsFormat)
    requires o.long > 0 && o.oneline > 0 && o.grid == 0
    ensures DeduceMode(o, vars, false, xattrEnabled, flagsOf).Ok? ==> DeduceMode(o, vars, false, xattrEnabled, flagsOf).value.Details?
    ensures o.across == 0 ==> DeduceMode(o, vars, true, xattrEnabled, flagsOf) == Err(Useless("one-line", true, "long"))
  {
  }

  /** An empty custom time format aborts the mode deduction of a long view. */
  lemma LongEmptyCustomFormatAborts(o: Opts, vars: Vars, strict: bool, xattrEnabled: bool, flagsOf: Vars -> FlagsFormat)
    requires o.long > 0 && o.timeStyle == Some("+")
    requires !(strict && ((o.across > 0 && o.grid == 0) || o.oneline > 0))
    ensures DeduceMode(o, vars, strict, xattrEnabled, flagsOf) == Abort(EmptyNonRecentMessage)
  {
    CustomEmptyFirstLineAborts(o, vars, [], []);
  }

  /** A `--time` word outside the vocabulary is the error of a long view's
      mode deduction. */
  lemma LongBadTimeWord(o: Opts, vars: Vars, strict: bool, xattrEnabled: bool, flagsOf: Vars -> FlagsFormat)
    requires o.long > 0 && o.timeStyle.None? && TIME_STYLE !in vars
    requires o.noTime == 0 && o.time.Some? && !AnyTimeFlag(o)
    requires o.time.value !in {"mod", "modified", "ch", "changed", "acc", "accessed", "cr", "created"}
    requires !(strict && ((o.across > 0 && o.grid == 0) || o.oneline > 0))
    ensures DeduceMode(o, vars, strict, xattrEnabled, flagsOf) == Err(BadArgument("time", o.time.value))
  {
    TimeWordVocabulary(o);
  }
}
