/** The unit scenarios of the option-resolution code, each stated as a lemma
    about the model: a flag record differing from the defaults in a few
    fields, an environment, and the resolved value. */
module Scenarios {
  import opened Wrappers
  import opened Text
  import opened Numbers
  import opened Options
  import opened TimeStyle
  import opened Table
  import opened ColorScale
  import opened Terminal
  import opened ViewMode

  const NoVars: Vars := map[]

  lemma TimeTypesScenarios()
    ensures DeduceTimeTypes(DefaultOpts.(noTime := 1)) == Ok(NoTimeTypes)
    ensures DeduceTimeTypes(DefaultOpts) == Ok(DefaultTimeTypes)
    ensures DeduceTimeTypes(DefaultOpts.(time := Some("modified"))) == Ok(TimeTypes(true, false, false, false))
    ensures DeduceTimeTypes(DefaultOpts.(time := Some("accessed"))) == Ok(TimeTypes(false, false, true, false))
    ensures DeduceTimeTypes(DefaultOpts.(time := Some("changed"))) == Ok(TimeTypes(false, true, false, false))
    ensures DeduceTimeTypes(DefaultOpts.(time := Some("created"))) == Ok(TimeTypes(false, false, false, true))
    ensures DeduceTimeTypes(DefaultOpts.(modified := 1)) == Ok(TimeTypes(true, false, false, false))
    ensures DeduceTimeTypes(DefaultOpts.(accessed := 1)) == Ok(TimeTypes(false, false, true, false))
    ensures DeduceTimeTypes(DefaultOpts.(changed := 1)) == Ok(TimeTypes(false, true, false, false))
    ensures DeduceTimeTypes(DefaultOpts.(created := 1)) == Ok(TimeTypes(false, false, false, true))
  {
  }

  lemma FormatScenarios()
    ensures DeduceGroupFormat(DefaultOpts.(smartGroup := 1)) == Smart
    ensures DeduceGroupFormat(DefaultOpts) == Regular
    ensures DeduceUserFormat(DefaultOpts.(numeric := 1)) == Numeric
    ensures DeduceUserFormat(DefaultOpts) == Name
    ensures DeduceSizeFormat(DefaultOpts) == DecimalBytes
    ensures DeduceSizeFormat(DefaultOpts.(bytes := 1)) == JustBytes
    ensures DeduceSizeFormat(DefaultOpts.(binary := 1)) == BinaryBytes
    ensures DeduceGrid(DefaultOpts.(across := 1)) == GridOptions(true)
  {
  }

  lemma TimeStyleScenarios()
    ensures DeduceTimeFormat(DefaultOpts, map[TIME_STYLE := "iso"]) == Ok(ISOFormat)
    ensures DeduceTimeFormat(DefaultOpts.(timeStyle := Some("iso")), NoVars) == Ok(ISOFormat)
    ensures DeduceTimeFormat(DefaultOpts, map[TIME_STYLE := "long-iso"]) == Ok(LongISO)
    ensures DeduceTimeFormat(DefaultOpts.(timeStyle := Some("long-iso")), NoVars) == Ok(LongISO)
    ensures DeduceTimeFormat(DefaultOpts, map[TIME_STYLE := "full-iso"]) == Ok(FullISO)
    ensures DeduceTimeFormat(DefaultOpts.(timeStyle := Some("full-iso")), NoVars) == Ok(FullISO)
    ensures DeduceTimeFormat(DefaultOpts, map[TIME_STYLE := "relative"]) == Ok(Relative)
    ensures DeduceTimeFormat(DefaultOpts.(timeStyle := Some("relative")), NoVars) == Ok(Relative)
    ensures DeduceTimeFormat(DefaultOpts.(timeStyle := Some("nice")), NoVars) == Err(BadArgument("time-style", "nice"))
    ensures DeduceTimeFormat(DefaultOpts.(timeStyle := Some("ISO")), NoVars) == Err(BadArgument("time-style", "ISO"))
  {
  }

  lemma CustomStyleFromEnvironment()
    ensures DeduceTimeFormat(DefaultOpts, map[TIME_STYLE := "+%Y-%b-%d"]) == Ok(Custom("%Y-%b-%d", None))
  {
    var o := DefaultOpts.(timeStyle := Some("+%Y-%b-%d"));
    assert "+%Y-%b-%d" == "+" + "%Y-%b-%d";
    CustomSingleLine(o, NoVars, "%Y-%b-%d");
    assert StyleWord(DefaultOpts, map[TIME_STYLE := "+%Y-%b-%d"]) == StyleWord(o, NoVars);
  }

  lemma CustomStyleFromFlag()
    ensures DeduceTimeFormat(DefaultOpts.(timeStyle := Some("+%Y-%b-%d")), NoVars) == Ok(Custom("%Y-%b-%d", None))
  {
    assert "+%Y-%b-%d" == "+" + "%Y-%b-%d";
    CustomSingleLine(DefaultOpts.(timeStyle := Some("+%Y-%b-%d")), NoVars, "%Y-%b-%d");
  }

  lemma CustomStyleRecentAndNonRecent()
    ensures DeduceTimeFormat(DefaultOpts.(timeStyle := Some("+%Y-%m-%d %H\n--%m-%d %H:%M")), NoVars) ==
      Ok(Custom("%Y-%m-%d %H", Some("--%m-%d %H:%M")))
  {
    var first, recent := "%Y-%m-%d %H", "--%m-%d %H:%M";
    assert "+%Y-%m-%d %H\n--%m-%d %H:%M" == "+" + first + "\n" + recent;
    assert !EndsWithCR(first);
    CustomTwoLines(DefaultOpts.(timeStyle := Some("+" + first + "\n" + recent)), NoVars, first, recent);
  }

  /** "size,age" is the two words "size" and "age". */
  lemma SplitSizeAge()
    ensures Split("size,age", ',') == ["size", "age"]
  {
    var parts := ["size", "age"];
    assert Join(parts, ',') == "size,age";
    forall i | 0 <= i < |parts|
      ensures ',' !in parts[i]
    {
      ScaleWordHasNoComma(parts[i]);
    }
    SplitJoin(parts, ',');
  }

  lemma SplitSingleWord(w: string)
    requires IsScaleWord(w)
    ensures Split(w, ',') == [w]
  {
    ScaleWordHasNoComma(w);
  }

  lemma LuminanceOf(s: string, n: nat)
    requires s != [] && AllDigits(s) && DigitsValue(s) == n <= 100
    ensures MinLuminance(map[EZA_MIN_LUMINANCE := s]) == n
  {
  }

  lemma ColorScaleSizeAge(o: Opts, vars: Vars)
    requires o.colorScale == Some("size,age")
    ensures ColorScaleFor(o, vars) == Ok(ColorScaleOptions(ModeOf(o.colorScaleMode), MinLuminance(vars), true, true))
  {
    SplitSizeAge();
    var words := Split(o.colorScale.value, ',');
    assert words == ["size", "age"];
    assert words[0] == "size" && words[1] == "age";
    assert FirstUnknownWord(words[1..]) == None;
    assert FirstUnknownWord(words) == None;
    assert "size" in words && "age" in words;
    var base := BaseOptions(o, vars);
    assert ColorScaleFor(o, vars) == Ok(base.(size := true, age := true));
  }

  lemma ColorScaleSizeAgeDefaultLuminance()
    ensures ColorScaleFor(DefaultOpts.(colorScale := Some("size,age")), NoVars) ==
      Ok(ColorScaleOptions(ColorScaleMode.Gradient, 40, true, true))
  {
    ColorScaleSizeAge(DefaultOpts.(colorScale := Some("size,age")), NoVars);
  }

  lemma ColorScaleSizeLuminance60()
    ensures ColorScaleFor(DefaultOpts.(colorScale := Some("size")), map[EZA_MIN_LUMINANCE := "60"]) ==
      Ok(ColorScaleOptions(ColorScaleMode.Gradient, 60, true, false))
  {
    SplitSingleWord("size");
    assert DigitsValue("60") == 60;
    LuminanceOf("60", 60);
  }

  lemma ColorScaleAgeLuminance60Fixed()
    ensures ColorScaleFor(DefaultOpts.(colorScaleMode := ColorScaleModeArgs.Fixed, colorScale := Some("age")),
                          map[EZA_MIN_LUMINANCE := "60"]) ==
      Ok(ColorScaleOptions(ColorScaleMode.Fixed, 60, false, true))
  {
    SplitSingleWord("age");
    assert DigitsValue("60") == 60;
    LuminanceOf("60", 60);
  }

  lemma ColorScaleSizeAgeLuminance99Fixed()
    ensures ColorScaleFor(DefaultOpts.(colorScaleMode := ColorScaleModeArgs.Fixed, colorScale := Some("size,age")),
                          map[EZA_MIN_LUMINANCE := "99"]) ==
      Ok(ColorScaleOptions(ColorScaleMode.Fixed, 99, true, true))
  {
    assert DigitsValue("99") == 99;
    LuminanceOf("99", 99);
    ColorScaleSizeAge(DefaultOpts.(colorScaleMode := ColorScaleModeArgs.Fixed, colorScale := Some("size,age")),
                      map[EZA_MIN_LUMINANCE := "99"]);
  }

  lemma ModeScenarios(xattrEnabled: bool, flagsOf: Vars -> FlagsFormat)
    ensures DeduceMode(DefaultOpts.(grid := 1), NoVars, false, xattrEnabled, flagsOf) == Ok(Grid(GridOptions(false)))
    ensures DeduceMode(DefaultOpts.(grid := 1, across := 1), NoVars, false, xattrEnabled, flagsOf) == Ok(Grid(GridOptions(true)))
    ensures DeduceLong(DefaultOpts.(long := 1, across := 1), NoVars, true, xattrEnabled, flagsOf) ==
      Err(Useless("across", true, "long"))
    ensures DeduceLong(DefaultOpts.(long := 1, oneline := 1), NoVars, true, xattrEnabled, flagsOf) ==
      Err(Useless("one-line", true, "long"))
  {
  }

  /** The colour-scale options every tree scenario expects. */
  const PlainScale := ColorScaleOptions(ColorScaleMode.Gradient, 40, false, false)

  lemma TreeScenarios(xattrEnabled: bool)
    ensures DeduceTree(DefaultOpts.(tree := 1), NoVars, xattrEnabled) ==
      Ok(DetailsOptions(None, false, false, false, false, PlainScale))
    ensures DeduceTree(DefaultOpts.(tree := 1, mounts := 1), NoVars, xattrEnabled) ==
      Ok(DetailsOptions(None, false, false, false, true, PlainScale))
    ensures DeduceTree(DefaultOpts.(tree := 1, extended := 1), NoVars, xattrEnabled) ==
      Ok(DetailsOptions(None, false, xattrEnabled, false, false, PlainScale))
    ensures DeduceTree(DefaultOpts.(tree := 1, securityContext := 1), NoVars, xattrEnabled) ==
      Ok(DetailsOptions(None, false, false, xattrEnabled, false, PlainScale))
  {
  }

  lemma TerminalWidthScenarios()
    ensures DeduceTerminalWidth(DefaultOpts, NoVars) == Ok(Automatic)
    ensures DeduceTerminalWidth(DefaultOpts.(width := Some(80)), NoVars) == Ok(Set(80))
    ensures DeduceTerminalWidth(DefaultOpts, map[COLUMNS := "80"]) == Ok(Set(80))
    ensures DeduceTerminalWidth(DefaultOpts, map[COLUMNS := "bad"]) ==
      Err(FailedParse("bad", Env(COLUMNS), InvalidDigit))
  {
    assert DigitsValue("80") == 80;
  }
}
