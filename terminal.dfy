/** The numeric settings read from a flag or the environment: the terminal
    width and the grid-details row threshold. */
module Terminal {
  import opened Wrappers
  import opened Numbers
  import opened Options

  datatype TerminalWidth = Set(width: int) | Automatic

  datatype RowThreshold = AlwaysGrid | MinimumRows(rows: nat)

  /** `--width` wins, where any value below 1 means "automatic"; otherwise
      COLUMNS, which must parse; otherwise automatic. */
  function DeduceTerminalWidth(o: Opts, vars: Vars): (r: Outcome<TerminalWidth>)
    ensures !r.Abort?
    ensures o.width.Some? && o.width.value >= 1 ==> r == Ok(Set(o.width.value))
    ensures o.width.Some? && o.width.value < 1 ==> r == Ok(Automatic)
    ensures o.width.None? && COLUMNS !in vars ==> r == Ok(Automatic)
    ensures o.width.None? && COLUMNS in vars && ParseUnsigned(vars[COLUMNS]).Parsed? ==>
      r == Ok(Set(ParseUnsigned(vars[COLUMNS]).value))
    ensures o.width.None? && COLUMNS in vars && ParseUnsigned(vars[COLUMNS]).Unparsable? ==>
      r == Err(FailedParse(vars[COLUMNS], Env(COLUMNS), ParseUnsigned(vars[COLUMNS]).kind))
    ensures r.Ok? && r.value.Set? ==> r.value.width >= 0
  {
    if o.width.Some? then
      if o.width.value >= 1 then Ok(Set(o.width.value)) else Ok(Automatic)
    else
      match Get(vars, COLUMNS)
      case Some(columns) =>
        (match ParseUnsigned(columns)
         case Parsed(width) => Ok(Set(width))
         case Unparsable(e) => Err(FailedParse(columns, Env(COLUMNS), e)))
      case None => Ok(Automatic)
  }

  /** The width flag never fails and makes the environment irrelevant. */
  lemma WidthFlagBeatsColumns(o: Opts, vars: Vars, other: Vars)
    requires o.width.Some?
    ensures DeduceTerminalWidth(o, vars) == DeduceTerminalWidth(o, other)
    ensures DeduceTerminalWidth(o, vars).Ok?
  {
  }

  /** Any width written out in decimal in COLUMNS is the width used. */
  lemma ColumnsWidthRoundTrip(o: Opts, vars: Vars, n: nat)
    requires o.width.None? && COLUMNS in vars && vars[COLUMNS] == ShowNat(n)
    ensures DeduceTerminalWidth(o, vars) == Ok(Set(n))
  {
    ParseShowNat(n);
  }

  /** The row threshold: EZA_GRID_ROWS, else EXA_GRID_ROWS; absent means
      always use the grid; a value that does not parse is reported against
      the key that supplied it. */
  function DeduceRowThreshold(vars: Vars): (r: Outcome<RowThreshold>)
    ensures !r.Abort?
    ensures EZA_GRID_ROWS !in vars && EXA_GRID_ROWS !in vars ==> r == Ok(AlwaysGrid)
    ensures r.Ok? && r.value.MinimumRows? ==>
      ParseUnsigned(GetWithFallback(vars, EZA_GRID_ROWS, EXA_GRID_ROWS).value) == Parsed(r.value.rows)
    ensures (r.Ok? && r.value.AlwaysGrid?) <==> EZA_GRID_ROWS !in vars && EXA_GRID_ROWS !in vars
    ensures r.Err? ==>
      var key := if EZA_GRID_ROWS in vars then EZA_GRID_ROWS else EXA_GRID_ROWS;
      key in vars && r.error.FailedParse? && r.error.source == Env(key) && r.error.raw == vars[key] &&
      ParseUnsigned(vars[key]) == Unparsable(r.error.cause)
  {
    match GetWithFallback(vars, EZA_GRID_ROWS, EXA_GRID_ROWS)
    case Some(rows) =>
      (match ParseUnsigned(rows)
       case Parsed(n) => Ok(MinimumRows(n))
       case Unparsable(e) =>
         var key := Source(vars, EZA_GRID_ROWS, EXA_GRID_ROWS).value;
         Err(FailedParse(rows, Env(key), e)))
    case None => Ok(AlwaysGrid)
  }

  /** The current namespace wins over the legacy one. */
  lemma RowThresholdPrimaryWins(vars: Vars, n: nat)
    requires EZA_GRID_ROWS in vars && vars[EZA_GRID_ROWS] == ShowNat(n)
    ensures DeduceRowThreshold(vars) == Ok(MinimumRows(n))
  {
    ParseShowNat(n);
  }

  /** With only the legacy variable set, it supplies the threshold. */
  lemma RowThresholdLegacyFallback(vars: Vars, n: nat)
    requires EZA_GRID_ROWS !in vars && EXA_GRID_ROWS in vars && vars[EXA_GRID_ROWS] == ShowNat(n)
    ensures DeduceRowThreshold(vars) == Ok(MinimumRows(n))
  {
    ParseShowNat(n);
  }
}
