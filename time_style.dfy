/** How timestamps are formatted: the `--time-style` flag or the TIME_STYLE
    variable, the five named styles and the `+` custom-format language. */
module TimeStyle {
  import opened Wrappers
  import opened Text
  import opened Options

  datatype TimeFormat =
    | DefaultFormat
    | Relative
    | ISOFormat
    | LongISO
    | FullISO
    | Custom(nonRecent: string, recent: Option<string>)

  const EmptyNonRecentMessage := "Custom timestamp format is empty, please supply a chrono format string after the plus sign."
  const EmptyRecentMessage := "Custom timestamp format for recent files is empty, please supply a chrono format string at the second line."

  /** The style word to interpret: the flag's value whatever it is, else the
      TIME_STYLE variable unless it is empty. */
  function StyleWord(o: Opts, vars: Vars): (r: Option<string>)
    ensures o.timeStyle.Some? ==> r == o.timeStyle
    ensures o.timeStyle.None? ==> (r.Some? <==> TIME_STYLE in vars && vars[TIME_STYLE] != [])
    ensures o.timeStyle.None? && r.Some? ==> r.value == vars[TIME_STYLE]
  {
    if o.timeStyle.Some? then o.timeStyle
    else
      match Get(vars, TIME_STYLE)
      case Some(t) => if t != [] then Some(t) else None
      case None => None
  }

  /** The named styles, matched case-sensitively. */
  function NamedStyle(word: string): Option<TimeFormat>
  {
    match word
    case "default" => Some(DefaultFormat)
    case "relative" => Some(Relative)
    case "iso" => Some(ISOFormat)
    case "long-iso" => Some(LongISO)
    case "full-iso" => Some(FullISO)
    case _ => None
  }

  /** The text after '+': its first line is the format for files that are not recent and
      must be there and non-empty; a second line, if there is one, is the
      format for recent files and must be non-empty; later lines are
      ignored. An empty format aborts. */
  function CustomFormat(spec: string): (r: Outcome<TimeFormat>)
    ensures !r.Err?
    ensures r.Ok? ==> r.value.Custom?
    ensures r.Ok? ==> r.value.nonRecent != [] && '\n' !in r.value.nonRecent
    ensures r.Ok? && r.value.recent.Some? ==> r.value.recent.value != [] && '\n' !in r.value.recent.value
    ensures r.Abort? ==> r.message in {EmptyNonRecentMessage, EmptyRecentMessage}
  {
    var lines := Lines(spec);
    if lines == [] || lines[0] == [] then Abort(EmptyNonRecentMessage)
    else if |lines| >= 2 && lines[1] == [] then Abort(EmptyRecentMessage)
    else Ok(Custom(lines[0], if |lines| >= 2 then Some(lines[1]) else None))
  }

  function DeduceTimeFormat(o: Opts, vars: Vars): (r: Outcome<TimeFormat>)
    ensures StyleWord(o, vars).None? ==> r == Ok(DefaultFormat)
    ensures r.Err? ==> StyleWord(o, vars).Some? && r.error == BadArgument("time-style", StyleWord(o, vars).value)
    ensures r.Abort? ==> StyleWord(o, vars).Some? && StyleWord(o, vars).value != [] && StyleWord(o, vars).value[0] == '+'
    ensures r.Ok? && r.value.Custom? ==> r.value.nonRecent != [] && (r.value.recent.Some? ==> r.value.recent.value != [])
  {
    match StyleWord(o, vars)
    case None => Ok(DefaultFormat)
    case Some(word) =>
      match NamedStyle(word)
      case Some(f) => Ok(f)
      case None =>
        if word != [] && word[0] == '+' then CustomFormat(word[1..])
        else Err(BadArgument("time-style", word))
  }

  /** The flag beats the variable: with a flag value the environment plays
      no part. */
  lemma FlagBeatsEnvironment(o: Opts, vars: Vars, other: Vars)
    requires o.timeStyle.Some?
    ensures DeduceTimeFormat(o, vars) == DeduceTimeFormat(o, other)
  {
  }

  /** An empty or missing TIME_STYLE counts as absent. */
  lemma EmptyEnvironmentIsDefault(o: Opts, vars: Vars)
    requires o.timeStyle.None?
    requires TIME_STYLE !in vars || vars[TIME_STYLE] == []
    ensures DeduceTimeFormat(o, vars) == Ok(DefaultFormat)
  {
  }

  /** An empty flag value is not skipped: it is a bad argument. */
  lemma EmptyFlagIsBadArgument(o: Opts, vars: Vars)
    requires o.timeStyle == Some([])
    ensures DeduceTimeFormat(o, vars) == Err(BadArgument("time-style", []))
  {
  }

  /** The five named styles, from the flag or from the variable. */
  lemma NamedStyles(o: Opts, vars: Vars)
    ensures StyleWord(o, vars) == Some("default") ==> DeduceTimeFormat(o, vars) == Ok(DefaultFormat)
    ensures StyleWord(o, vars) == Some("relative") ==> DeduceTimeFormat(o, vars) == Ok(Relative)
    ensures StyleWord(o, vars) == Some("iso") ==> DeduceTimeFormat(o, vars) == Ok(ISOFormat)
    ensures StyleWord(o, vars) == Some("long-iso") ==> DeduceTimeFormat(o, vars) == Ok(LongISO)
    ensures StyleWord(o, vars) == Some("full-iso") ==> DeduceTimeFormat(o, vars) == Ok(FullISO)
  {
  }

  /** Any other word that does not start with '+' is a bad argument. */
  lemma UnknownWordIsBadArgument(o: Opts, vars: Vars, word: string)
    requires StyleWord(o, vars) == Some(word)
    requires word !in {"default", "relative", "iso", "long-iso", "full-iso"}
    requires word == [] || word[0] != '+'
    ensures DeduceTimeFormat(o, vars) == Err(BadArgument("time-style", word))
  {
  }

  /** A style word is Custom exactly when it starts with '+' and the
      custom-format language accepts the rest. */
  lemma CustomOnlyFromPlus(o: Opts, vars: Vars)
    ensures DeduceTimeFormat(o, vars).Ok? && DeduceTimeFormat(o, vars).value.Custom? <==>
      (StyleWord(o, vars).Some? && StyleWord(o, vars).value != [] && StyleWord(o, vars).value[0] == '+' &&
       CustomFormat(StyleWord(o, vars).value[1..]).Ok?)
  {
    match StyleWord(o, vars)
    case None =>
    case Some(word) =>
      if word != [] && word[0] == '+' {
        PlusIsNotNamed(word);
      }
  }

  lemma PlusIsNotNamed(word: string)
    requires word != [] && word[0] == '+'
    ensures NamedStyle(word).None?
  {
    assert word[0] != "default"[0] && word[0] != "relative"[0] && word[0] != "iso"[0];
    assert word[0] != "long-iso"[0] && word[0] != "full-iso"[0];
  }

  /** "+fmt" with a single line gives a custom format for every file. */
  lemma CustomSingleLine(o: Opts, vars: Vars, fmt: string)
    requires o.timeStyle == Some("+" + fmt)
    requires fmt != [] && '\n' !in fmt
    ensures DeduceTimeFormat(o, vars) == Ok(Custom(fmt, None))
  {
    PlusIsNotNamed("+" + fmt);
    assert ("+" + fmt)[1..] == fmt;
    LinesLast(fmt);
  }

  /** A single final newline adds no recent-files line. */
  lemma CustomFinalNewline(o: Opts, vars: Vars, fmt: string)
    requires o.timeStyle == Some("+" + fmt + "\n")
    requires fmt != [] && '\n' !in fmt && !EndsWithCR(fmt)
    ensures DeduceTimeFormat(o, vars) == Ok(Custom(fmt, None))
  {
    PlusIsNotNamed("+" + fmt + "\n");
    assert ("+" + fmt + "\n")[1..] == fmt + "\n" + [];
    LinesFirst(fmt, []);
  }

  /** "+first\nrecent" sets both formats; a "\r\n" line end is accepted. */
  lemma CustomTwoLines(o: Opts, vars: Vars, first: string, recent: string)
    requires o.timeStyle == Some("+" + first + "\n" + recent)
    requires '\n' !in first && StripCR(first) != []
    requires '\n' !in recent && recent != []
    ensures DeduceTimeFormat(o, vars) == Ok(Custom(StripCR(first), Some(recent)))
  {
    var word := "+" + first + "\n" + recent;
    PlusIsNotNamed(word);
    assert word[1..] == first + "\n" + recent;
    LinesFirst(first, recent);
    LinesLast(recent);
  }

  /** Lines after the second are ignored. */
  lemma CustomLaterLinesIgnored(o: Opts, vars: Vars, first: string, recent: string, rest: string)
    requires o.timeStyle == Some("+" + first + "\n" + recent + "\n" + rest)
    requires '\n' !in first && StripCR(first) != []
    requires '\n' !in recent && StripCR(recent) != []
    ensures DeduceTimeFormat(o, vars) == Ok(Custom(StripCR(first), Some(StripCR(recent))))
  {
    var word := "+" + first + "\n" + recent + "\n" + rest;
    PlusIsNotNamed(word);
    assert word[1..] == first + "\n" + (recent + "\n" + rest);
    LinesFirst(first, recent + "\n" + rest);
    LinesFirst(recent, rest);
  }

  /** Nothing after '+', or a first line that is empty once its line end
      ("\n" or "\r\n") is removed, aborts. */
  lemma CustomEmptyFirstLineAborts(o: Opts, vars: Vars, first: string, rest: string)
    requires o.timeStyle == Some("+") ||
             (o.timeStyle == Some("+" + first + "\n" + rest) && '\n' !in first && StripCR(first) == [])
    ensures DeduceTimeFormat(o, vars) == Abort(EmptyNonRecentMessage)
  {
    var word := o.timeStyle.value;
    PlusIsNotNamed(word);
    if word != "+" {
      assert word[1..] == first + "\n" + rest;
      LinesFirst(first, rest);
    }
  }

  /** A second line that is empty once its line end is removed aborts. */
  lemma CustomEmptySecondLineAborts(o: Opts, vars: Vars, first: string, second: string, rest: string)
    requires o.timeStyle == Some("+" + first + "\n" + second + "\n" + rest)
    requires '\n' !in first && StripCR(first) != []
    requires '\n' !in second && StripCR(second) == []
    ensures DeduceTimeFormat(o, vars) == Abort(EmptyRecentMessage)
  {
    var word := "+" + first + "\n" + second + "\n" + rest;
    PlusIsNotNamed(word);
    assert word[1..] == first + "\n" + (second + "\n" + rest);
    LinesFirst(first, second + "\n" + rest);
    LinesFirst(second, rest);
  }
}
