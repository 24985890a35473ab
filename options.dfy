/** The inputs of option resolution: the flag record produced by the
    command-line parser, the environment, and the error taxonomy. */
module Options {
  import opened Wrappers
  import opened Numbers

  /** The argument of `--color-scale-mode`; Gradient is the parser's default. */
  datatype ColorScaleModeArgs = Fixed | Gradient

  /** The flag record: an occurrence count per switch (more than zero means
      "given") and the values of the options that take one. */
  datatype Opts = Opts(
    long: nat, oneline: nat, grid: nat, tree: nat, across: nat,
    binary: nat, bytes: nat, inode: nat, links: nat, header: nat, blocksize: nat,
    time: Option<string>, group: nat, numeric: nat, mounts: nat,
    git: nat, noGit: nat, level: Option<string>, recurse: nat,
    extended: nat, securityContext: nat,
    width: Option<int>,
    timeStyle: Option<string>,
    modified: nat, changed: nat, accessed: nat, created: nat, noTime: nat,
    smartGroup: nat, gitRepos: nat, gitReposNoStatus: nat, fileFlags: nat, octal: nat,
    noPermissions: nat, noFilesize: nat, noUser: nat,
    colorScaleMode: ColorScaleModeArgs, colorScale: Option<string>,
    dereference: nat, totalSize: nat)

  /** No flag given, every option at its default. */
  const DefaultOpts := Opts(
    long := 0, oneline := 0, grid := 0, tree := 0, across := 0,
    binary := 0, bytes := 0, inode := 0, links := 0, header := 0, blocksize := 0,
    time := None, group := 0, numeric := 0, mounts := 0,
    git := 0, noGit := 0, level := None, recurse := 0,
    extended := 0, securityContext := 0,
    width := None,
    timeStyle := None,
    modified := 0, changed := 0, accessed := 0, created := 0, noTime := 0,
    smartGroup := 0, gitRepos := 0, gitReposNoStatus := 0, fileFlags := 0, octal := 0,
    noPermissions := 0, noFilesize := 0, noUser := 0,
    colorScaleMode := Gradient, colorScale := None,
    dereference := 0, totalSize := 0)

  /** The name of the first flag in the list that was given. */
  function FirstGiven(flags: seq<(bool, string)>): (r: Option<string>)
    ensures r.None? <==> forall i :: 0 <= i < |flags| ==> !flags[i].0
  {
    if flags == [] then None
    else if flags[0].0 then Some(flags[0].1)
    else FirstGiven(flags[1..])
  }

  /** The first given flag is the one that is given after none before it. */
  lemma {:induction false} FirstGivenIsFirst(flags: seq<(bool, string)>, k: nat)
    requires k < |flags| && flags[k].0
    requires forall j :: 0 <= j < k ==> !flags[j].0
    ensures FirstGiven(flags) == Some(flags[k].1)
  {
    if k > 0 {
      FirstGivenIsFirst(flags[1..], k - 1);
    }
  }

  /** The environment, as an in-memory key-value map. */
  type Vars = map<string, string>

  const COLUMNS := "COLUMNS"
  const EZA_GRID_ROWS := "EZA_GRID_ROWS"
  const EXA_GRID_ROWS := "EXA_GRID_ROWS"
  const EXA_OVERRIDE_GIT := "EXA_OVERRIDE_GIT"
  const EZA_OVERRIDE_GIT := "EZA_OVERRIDE_GIT"
  const EZA_MIN_LUMINANCE := "EZA_MIN_LUMINANCE"
  const EXA_MIN_LUMINANCE := "EXA_MIN_LUMINANCE"
  const TIME_STYLE := "TIME_STYLE"

  function Get(vars: Vars, key: string): Option<string>
  {
    if key in vars then Some(vars[key]) else None
  }

  /** The value of the primary key if it is set, else that of the secondary. */
  function GetWithFallback(vars: Vars, primary: string, secondary: string): (r: Option<string>)
    ensures r.Some? <==> primary in vars || secondary in vars
    ensures primary in vars ==> r == Some(vars[primary])
    ensures primary !in vars ==> r == Get(vars, secondary)
  {
    if primary in vars then Some(vars[primary]) else Get(vars, secondary)
  }

  /** Which of the two keys supplied the value of `GetWithFallback`, for
      error attribution. */
  function Source(vars: Vars, primary: string, secondary: string): (r: Option<string>)
    ensures r.Some? <==> GetWithFallback(vars, primary, secondary).Some?
    ensures r.Some? ==> r.value in vars && vars[r.value] == GetWithFallback(vars, primary, secondary).value
    ensures r.Some? ==> r.value == primary || r.value == secondary
    ensures r == Some(secondary) ==> primary !in vars || primary == secondary
  {
    if primary in vars then Some(primary)
    else if secondary in vars then Some(secondary)
    else None
  }

  /** Where a number that failed to parse came from. */
  datatype NumberSource = Arg(flag: string) | Env(key: string)

  datatype OptionsError =
    | Useless(flag: string, impliesLong: bool, context: string)
    | Useless2(flag: string, requiredA: string, requiredB: string)
    | BadArgument(option: string, value: string)
    | FailedParse(raw: string, source: NumberSource, cause: IntErrorKind)

  /** The result of a deduction: a value, a recoverable error, or the
      process abort that the source raises through `panic!`/`expect`. */
  datatype Outcome<+T> = Ok(value: T) | Err(error: OptionsError) | Abort(message: string) {

    predicate IsFailure() {
      !Ok?
    }

    function PropagateFailure<U>(): Outcome<U>
      requires !Ok?
    {
      if Err? then Err(error) else Abort(message)
    }

    function Extract(): T
      requires Ok?
    {
      value
    }
  }

  /** An error that strict mode's linting raises with the context "long". */
  predicate IsLongLint(e: OptionsError)
  {
    (e.Useless? && e.context == "long") || e.Useless2?
  }

  /** A failure that is not strict mode's "long" linting. */
  predicate NotLongLint<T>(r: Outcome<T>)
  {
    r.Err? ==> !IsLongLint(r.error)
  }
}
