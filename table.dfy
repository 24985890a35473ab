/** The long-view table: the size, user and group formats, the timestamp
    columns, the column set, and their assembly. */
module Table {
  import opened Wrappers
  import opened Options
  import opened TimeStyle

  datatype SizeFormat = DecimalBytes | BinaryBytes | JustBytes

  datatype UserFormat = Name | Numeric

  datatype GroupFormat = Regular | Smart

  /** The file-flags display style. It is resolved from the environment by
      a collaborator this model does not include, which the deductions take
      as a function parameter. */
  datatype FlagsFormat = FlagsFormat(style: string)

  datatype TimeTypes = TimeTypes(modified: bool, changed: bool, accessed: bool, created: bool)

  /** With nothing asked for, only the modified time is shown. */
  const DefaultTimeTypes := TimeTypes(true, false, false, false)

  const NoTimeTypes := TimeTypes(false, false, false, false)

  datatype Columns = Columns(
    timeTypes: TimeTypes,
    inode: bool, links: bool, blocksize: bool, group: bool,
    git: bool, subdirGitRepos: bool, subdirGitReposNoStat: bool,
    octal: bool, securityContext: bool, fileFlags: bool,
    permissions: bool, filesize: bool, user: bool)

  datatype TableOptions = TableOptions(
    sizeFormat: SizeFormat, timeFormat: TimeFormat, userFormat: UserFormat,
    groupFormat: GroupFormat, flagsFormat: FlagsFormat, columns: Columns)

  /** `--binary` beats `--bytes`, which beats the decimal default. */
  function DeduceSizeFormat(o: Opts): (r: SizeFormat)
    ensures r == BinaryBytes <==> o.binary > 0
    ensures r == JustBytes <==> o.binary == 0 && o.bytes > 0
    ensures r == DecimalBytes <==> o.binary == 0 && o.bytes == 0
  {
    if o.binary > 0 then BinaryBytes
    else if o.bytes > 0 then JustBytes
    else DecimalBytes
  }

  function DeduceUserFormat(o: Opts): (r: UserFormat)
    ensures r == Numeric <==> o.numeric > 0
  {
    if o.numeric > 0 then Numeric else Name
  }

  function DeduceGroupFormat(o: Opts): (r: GroupFormat)
    ensures r == Smart <==> o.smartGroup > 0
  {
    if o.smartGroup > 0 then Smart else Regular
  }

  /** The individual timestamp flags, in the order they are reported. */
  function TimeFlags(o: Opts): seq<(bool, string)>
  {
    [(o.modified > 0, "modified"), (o.changed > 0, "changed"),
     (o.accessed > 0, "accessed"), (o.created > 0, "created")]
  }

  predicate AnyTimeFlag(o: Opts)
  {
    o.modified > 0 || o.changed > 0 || o.accessed > 0 || o.created > 0
  }

  predicate ExactlyOne(t: TimeTypes)
  {
    (if t.modified then 1 else 0) + (if t.changed then 1 else 0) +
    (if t.accessed then 1 else 0) + (if t.created then 1 else 0) == 1
  }

  /** The single column a `--time` word selects. */
  function TimeWord(word: string): Option<TimeTypes>
  {
    if word == "mod" || word == "modified" then Some(TimeTypes(true, false, false, false))
    else if word == "ch" || word == "changed" then Some(TimeTypes(false, true, false, false))
    else if word == "acc" || word == "accessed" then Some(TimeTypes(false, false, true, false))
    else if word == "cr" || word == "created" then Some(TimeTypes(false, false, false, true))
    else None
  }

  /** Which timestamp columns to show: `--no-time` turns all off; a `--time`
      word selects one and may not be combined with the individual flags;
      the individual flags select exactly themselves; the default is the
      modified time alone. */
  function DeduceTimeTypes(o: Opts): (r: Outcome<TimeTypes>)
    ensures !r.Abort?
    ensures o.noTime > 0 ==> r == Ok(NoTimeTypes)
    ensures r.Err? ==> o.noTime == 0 && o.time.Some?
    ensures o.noTime == 0 && o.time.Some? && AnyTimeFlag(o) ==>
      FirstGiven(TimeFlags(o)).Some? && r == Err(Useless(FirstGiven(TimeFlags(o)).value, true, "time"))
    ensures o.noTime == 0 && o.time.Some? && !AnyTimeFlag(o) ==>
      (r.Ok? ==> ExactlyOne(r.value)) &&
      (r.Err? ==> r.error == BadArgument("time", o.time.value))
    ensures o.noTime == 0 && o.time.None? ==>
      r == Ok(if AnyTimeFlag(o) then TimeTypes(o.modified > 0, o.changed > 0, o.accessed > 0, o.created > 0)
              else DefaultTimeTypes)
  {
    if o.noTime > 0 then Ok(NoTimeTypes)
    else if o.time.Some? then
      var word := o.time.value;
      if o.modified > 0 then Err(Useless("modified", true, "time"))
      else if o.changed > 0 then Err(Useless("changed", true, "time"))
      else if o.accessed > 0 then
        FirstGivenIsFirst(TimeFlags(o), 2);
        Err(Useless("accessed", true, "time"))
      else if o.created > 0 then
        FirstGivenIsFirst(TimeFlags(o), 3);
        Err(Useless("created", true, "time"))
      else
        match TimeWord(word)
        case Some(t) => Ok(t)
        case None => Err(BadArgument("time", word))
    else if AnyTimeFlag(o) then
      Ok(TimeTypes(o.modified > 0, o.changed > 0, o.accessed > 0, o.created > 0))
    else Ok(DefaultTimeTypes)
  }

  /** The `--time` vocabulary: each word and its abbreviation selects its
      one column, and any other word is a bad argument. */
  lemma TimeWordVocabulary(o: Opts)
    requires o.noTime == 0 && o.time.Some? && !AnyTimeFlag(o)
    ensures o.time.value in {"mod", "modified"} ==> DeduceTimeTypes(o) == Ok(TimeTypes(true, false, false, false))
    ensures o.time.value in {"ch", "changed"} ==> DeduceTimeTypes(o) == Ok(TimeTypes(false, true, false, false))
    ensures o.time.value in {"acc", "accessed"} ==> DeduceTimeTypes(o) == Ok(TimeTypes(false, false, true, false))
    ensures o.time.value in {"cr", "created"} ==> DeduceTimeTypes(o) == Ok(TimeTypes(false, false, false, true))
    ensures o.time.value !in {"mod", "modified", "ch", "changed", "acc", "accessed", "cr", "created"} ==>
      DeduceTimeTypes(o) == Err(BadArgument("time", o.time.value))
  {
  }

  /** Either override variable disables every git column. */
  predicate GitOverridden(vars: Vars)
  {
    GetWithFallback(vars, EXA_OVERRIDE_GIT, EZA_OVERRIDE_GIT).Some?
  }

  function DeduceColumns(o: Opts, vars: Vars, xattrEnabled: bool): (r: Outcome<Columns>)
    ensures r.Ok? <==> DeduceTimeTypes(o).Ok?
    ensures r.Err? ==> r.error == DeduceTimeTypes(o).error
    ensures !r.Abort?
    ensures r.Ok? ==> r.value.timeTypes == DeduceTimeTypes(o).value
    ensures r.Ok? ==> !(r.value.subdirGitRepos && r.value.subdirGitReposNoStat)
    ensures r.Ok? && (o.noGit > 0 || EXA_OVERRIDE_GIT in vars || EZA_OVERRIDE_GIT in vars) ==>
      !r.value.git && !r.value.subdirGitRepos && !r.value.subdirGitReposNoStat
    ensures r.Ok? && o.noGit == 0 && EXA_OVERRIDE_GIT !in vars && EZA_OVERRIDE_GIT !in vars ==>
      (r.value.git <==> o.git > 0) &&
      (r.value.subdirGitRepos <==> o.gitRepos > 0) &&
      (r.value.subdirGitReposNoStat <==> o.gitRepos == 0 && o.gitReposNoStatus > 0)
    ensures r.Ok? ==>
      (r.value.permissions <==> o.noPermissions == 0) &&
      (r.value.filesize <==> o.noFilesize == 0) &&
      (r.value.user <==> o.noUser == 0)
    ensures r.Ok? ==> (r.value.securityContext <==> xattrEnabled && o.securityContext > 0)
    ensures r.Ok? ==>
      (r.value.inode <==> o.inode > 0) && (r.value.links <==> o.links > 0) &&
      (r.value.blocksize <==> o.blocksize > 0) && (r.value.group <==> o.group > 0) &&
      (r.value.octal <==> o.octal > 0) && (r.value.fileFlags <==> o.fileFlags > 0)
  {
    var timeTypes :- DeduceTimeTypes(o);
    var noGitEnv := GitOverridden(vars);
    var git := o.git > 0 && o.noGit == 0 && !noGitEnv;
    var subdirGitRepos := o.gitRepos > 0 && o.noGit == 0 && !noGitEnv;
    var subdirGitReposNoStat := !subdirGitRepos && o.gitReposNoStatus > 0 && o.noGit == 0 && !noGitEnv;
    Ok(Columns(
      timeTypes,
      inode := o.inode > 0, links := o.links > 0, blocksize := o.blocksize > 0, group := o.group > 0,
      git := git, subdirGitRepos := subdirGitRepos, subdirGitReposNoStat := subdirGitReposNoStat,
      octal := o.octal > 0, securityContext := xattrEnabled && o.securityContext > 0,
      fileFlags := o.fileFlags > 0,
      permissions := o.noPermissions == 0, filesize := o.noFilesize == 0, user := o.noUser == 0))
  }

  /** The table's six leaves; the time format is resolved first, so its
      failure wins over one from the columns. */
  function DeduceTable(o: Opts, vars: Vars, xattrEnabled: bool, flagsOf: Vars -> FlagsFormat): (r: Outcome<TableOptions>)
    ensures DeduceTimeFormat(o, vars).IsFailure() ==> r == DeduceTimeFormat(o, vars).PropagateFailure()
    ensures DeduceTimeFormat(o, vars).Ok? ==> (r.Ok? <==> DeduceColumns(o, vars, xattrEnabled).Ok?)
    ensures DeduceTimeFormat(o, vars).Ok? && r.Err? ==> r.error == DeduceTimeTypes(o).error
    ensures r.Ok? ==> r.value.timeFormat == DeduceTimeFormat(o, vars).value
    ensures r.Ok? ==> r.value.columns == DeduceColumns(o, vars, xattrEnabled).value
    ensures r.Ok? ==> r.value.sizeFormat == DeduceSizeFormat(o) && r.value.userFormat == DeduceUserFormat(o)
    ensures r.Ok? ==> r.value.groupFormat == DeduceGroupFormat(o) && r.value.flagsFormat == flagsOf(vars)
    ensures DeduceTimeFormat(o, vars).Ok? ==> !r.Abort?
    ensures NotLongLint(r)
  {
    var timeFormat :- DeduceTimeFormat(o, vars);
    var flagsFormat := flagsOf(vars);
    var sizeFormat := DeduceSizeFormat(o);
    var userFormat := DeduceUserFormat(o);
    var groupFormat := DeduceGroupFormat(o);
    var columns :- DeduceColumns(o, vars, xattrEnabled);
    Ok(TableOptions(sizeFormat, timeFormat, userFormat, groupFormat, flagsFormat, columns))
  }
}
