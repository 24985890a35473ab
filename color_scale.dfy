/** Colour-scale options: the minimum luminance from the environment, the
    scale mode, and the comma-separated list of what to colour by file size
    or age. */
module ColorScale {
  import opened Wrappers
  import opened Text
  import opened Numbers
  import opened Options

  datatype ColorScaleMode = Fixed | Gradient

  datatype ColorScaleOptions = ColorScaleOptions(mode: ColorScaleMode, minLuminance: int, size: bool, age: bool)

  const DefaultMinLuminance := 40

  /** EZA_MIN_LUMINANCE, else EXA_MIN_LUMINANCE, when it parses to a value
      between -100 and 100; anything else silently gives 40. */
  function MinLuminance(vars: Vars): (r: int)
    ensures -100 <= r <= 100
    ensures r != DefaultMinLuminance ==>
      GetWithFallback(vars, EZA_MIN_LUMINANCE, EXA_MIN_LUMINANCE).Some? &&
      ParseSigned(GetWithFallback(vars, EZA_MIN_LUMINANCE, EXA_MIN_LUMINANCE).value) == Parsed(r)
    ensures GetWithFallback(vars, EZA_MIN_LUMINANCE, EXA_MIN_LUMINANCE).Some? ==>
      var p := ParseSigned(GetWithFallback(vars, EZA_MIN_LUMINANCE, EXA_MIN_LUMINANCE).value);
      p.Parsed? && -100 <= p.value <= 100 ==> r == p.value
  {
    match GetWithFallback(vars, EZA_MIN_LUMINANCE, EXA_MIN_LUMINANCE)
    case Some(v) =>
      (match ParseSigned(v)
       case Parsed(luminance) => if -100 <= luminance <= 100 then luminance else DefaultMinLuminance
       case Unparsable(_) => DefaultMinLuminance)
    case None => DefaultMinLuminance
  }

  /** Any in-range luminance written out in decimal is used as it is; any
      out-of-range one falls back to the default. */
  lemma LuminanceRoundTrip(vars: Vars, i: int)
    requires EZA_MIN_LUMINANCE in vars && vars[EZA_MIN_LUMINANCE] == ShowInt(i)
    ensures -100 <= i <= 100 ==> MinLuminance(vars) == i
    ensures !(-100 <= i <= 100) ==> MinLuminance(vars) == DefaultMinLuminance
  {
    ParseShowInt(i);
  }

  /** The legacy variable is read only when the current one is absent. */
  lemma LuminanceLegacyFallback(vars: Vars, i: int)
    requires EZA_MIN_LUMINANCE !in vars && EXA_MIN_LUMINANCE in vars && vars[EXA_MIN_LUMINANCE] == ShowInt(i)
    requires -100 <= i <= 100
    ensures MinLuminance(vars) == i
  {
    ParseShowInt(i);
  }

  function ModeOf(m: ColorScaleModeArgs): (r: ColorScaleMode)
    ensures r == ColorScaleMode.Fixed <==> m == ColorScaleModeArgs.Fixed
  {
    match m
    case Fixed => ColorScaleMode.Fixed
    case Gradient => ColorScaleMode.Gradient
  }

  predicate IsScaleWord(w: string)
  {
    w == "all" || w == "age" || w == "size"
  }

  /** The first word of the list that is not a scale word. */
  function FirstUnknownWord(words: seq<string>): (r: Option<string>)
    ensures r.None? <==> forall i :: 0 <= i < |words| ==> IsScaleWord(words[i])
    ensures r.Some? ==> r.value in words && !IsScaleWord(r.value)
  {
    if words == [] then None
    else if !IsScaleWord(words[0]) then Some(words[0])
    else FirstUnknownWord(words[1..])
  }

  lemma {:induction false} FirstUnknownWordAppend(words: seq<string>, w: string)
    ensures FirstUnknownWord(words + [w]) ==
      if FirstUnknownWord(words).Some? then FirstUnknownWord(words)
      else if IsScaleWord(w) then None
      else Some(w)
  {
    if words != [] {
      assert (words + [w])[1..] == words[1..] + [w];
      FirstUnknownWordAppend(words[1..], w);
    }
  }

  /** The options with nothing coloured by scale yet. */
  function BaseOptions(o: Opts, vars: Vars): ColorScaleOptions
  {
    ColorScaleOptions(ModeOf(o.colorScaleMode), MinLuminance(vars), false, false)
  }

  /** What `--color-scale` resolves to, stated on the whole word list: the
      first unknown word is a bad argument; otherwise size is on exactly
      when "size" or "all" is listed, and age exactly when "age" or "all"
      is. */
  function ColorScaleFor(o: Opts, vars: Vars): (r: Outcome<ColorScaleOptions>)
    ensures !r.Abort?
    ensures r.Ok? <==> o.colorScale.None? || FirstUnknownWord(Split(o.colorScale.value, ',')).None?
    ensures r.Err? ==> r.error == BadArgument("color-scale", FirstUnknownWord(Split(o.colorScale.value, ',')).value)
    ensures r.Ok? ==> r.value.mode == ModeOf(o.colorScaleMode) && r.value.minLuminance == MinLuminance(vars)
    ensures r.Ok? && o.colorScale.None? ==> !r.value.size && !r.value.age
  {
    var base := BaseOptions(o, vars);
    if o.colorScale.None? then Ok(base)
    else
      var words := Split(o.colorScale.value, ',');
      match FirstUnknownWord(words)
      case Some(w) => Err(BadArgument("color-scale", w))
      case None => Ok(base.(size := "size" in words || "all" in words, age := "age" in words || "all" in words))
  }

  /** The options record is built from the luminance and the mode, then
      each comma-separated word switches a dimension on; the first word
      that is not "all", "age" or "size" ends the loop with an error. */
  method DeduceColorScale(o: Opts, vars: Vars) returns (r: Outcome<ColorScaleOptions>)
    ensures r == ColorScaleFor(o, vars)
  {
    var options := BaseOptions(o, vars);
    if o.colorScale.None? {
      return Ok(options);
    }
    var words := Split(o.colorScale.value, ',');
    for i := 0 to |words|
      invariant FirstUnknownWord(words[..i]).None?
      invariant options == BaseOptions(o, vars).(size := "size" in words[..i] || "all" in words[..i],
                                                 age := "age" in words[..i] || "all" in words[..i])
    {
      var word := words[i];
      assert words[..i + 1] == words[..i] + [word];
      FirstUnknownWordAppend(words[..i], word);
      if word == "all" {
        options := options.(size := true, age := true);
      } else if word == "age" {
        options := options.(age := true);
      } else if word == "size" {
        options := options.(size := true);
      } else {
        FirstUnknownWordPrefix(words, i + 1);
        return Err(BadArgument("color-scale", word));
      }
    }
    assert words[..|words|] == words;
    return Ok(options);
  }

  /** The first unknown word of a prefix is that of the whole list. */
  lemma {:induction false} FirstUnknownWordPrefix(words: seq<string>, n: nat)
    requires n <= |words| && FirstUnknownWord(words[..n]).Some?
    ensures FirstUnknownWord(words) == FirstUnknownWord(words[..n])
  {
    assert words[..n][0] == words[0];
    if IsScaleWord(words[0]) {
      assert words[..n][1..] == words[1..][..n - 1];
      FirstUnknownWordPrefix(words[1..], n - 1);
    }
  }

  /** The luminance is always in range, and without `--color-scale` nothing
      is coloured by scale; the words only ever switch dimensions on. */
  lemma ColorScaleDefaults(o: Opts, vars: Vars)
    ensures ColorScaleFor(o, vars).Ok? ==> -100 <= ColorScaleFor(o, vars).value.minLuminance <= 100
    ensures ColorScaleFor(o, vars).Ok? ==> (ColorScaleFor(o, vars).value.mode == ColorScaleMode.Fixed <==> o.colorScaleMode == ColorScaleModeArgs.Fixed)
    ensures o.colorScale.None? ==> ColorScaleFor(o, vars).Ok? && !ColorScaleFor(o, vars).value.size && !ColorScaleFor(o, vars).value.age
    ensures ColorScaleFor(o, vars).Err? ==>
      && o.colorScale.Some?
      && ColorScaleFor(o, vars).error.BadArgument?
      && ColorScaleFor(o, vars).error.option == "color-scale"
      && !IsScaleWord(ColorScaleFor(o, vars).error.value)
    ensures !ColorScaleFor(o, vars).Abort?
  {
  }

  /** Order and repetition of the words do not matter: two lists with the
      same words give the same verdict and the same options. */
  lemma ColorScaleOrderFree(o: Opts, o': Opts, vars: Vars)
    requires o.colorScaleMode == o'.colorScaleMode
    requires o.colorScale.Some? && o'.colorScale.Some?
    requires forall w :: w in Split(o.colorScale.value, ',') <==> w in Split(o'.colorScale.value, ',')
    ensures ColorScaleFor(o, vars).Ok? <==> ColorScaleFor(o', vars).Ok?
    ensures ColorScaleFor(o, vars).Ok? ==> ColorScaleFor(o, vars) == ColorScaleFor(o', vars)
  {
  }

  /** An empty word, from a leading, doubled or trailing comma, is never
      accepted. */
  lemma EmptyWordRejected(o: Opts, vars: Vars)
    requires o.colorScale.Some? && [] in Split(o.colorScale.value, ',')
    ensures ColorScaleFor(o, vars).Err?
  {
  }

  lemma ScaleWordHasNoComma(w: string)
    requires IsScaleWord(w)
    ensures ',' !in w
  {
  }

  /** A trailing comma leaves an empty word, which is rejected. */
  lemma TrailingCommaRejected(o: Opts, vars: Vars, words: seq<string>)
    requires |words| >= 1 && forall i :: 0 <= i < |words| ==> IsScaleWord(words[i])
    requires o.colorScale == Some(Join(words + [[]], ','))
    ensures ColorScaleFor(o, vars) == Err(BadArgument("color-scale", []))
  {
    var all := words + [[]];
    forall i | 0 <= i < |all|
      ensures ',' !in all[i]
    {
      if i < |words| {
        ScaleWordHasNoComma(words[i]);
      }
    }
    SplitJoin(all, ',');
    assert FirstUnknownWord(words).None?;
    FirstUnknownWordAppend(words, []);
  }
}
