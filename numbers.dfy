/** Decimal integer parsing with the acceptance rules of Rust's `str::parse`
    for unsigned (`usize`) and signed (`isize`) integers, and the decimal
    rendering it inverts. Widths and overflow are not modelled. */
module Numbers {

  /** The kinds of `ParseIntError` that can arise without overflow. */
  datatype IntErrorKind = Empty | InvalidDigit

  datatype ParseResult = Parsed(value: int) | Unparsable(kind: IntErrorKind)

  predicate IsDigit(c: char)
  {
    '0' <= c <= '9'
  }

  predicate AllDigits(s: string)
  {
    forall i :: 0 <= i < |s| ==> IsDigit(s[i])
  }

  /** The value of a string of decimal digits, most significant first. */
  function DigitsValue(ds: string): nat
    requires AllDigits(ds)
  {
    if ds == [] then 0
    else 10 * DigitsValue(ds[..|ds| - 1]) + (ds[|ds| - 1] as int - '0' as int)
  }

  /** Rust's unsigned parse: an optional '+' and then at least one digit. */
  function ParseUnsigned(s: string): (r: ParseResult)
    ensures r.Parsed? ==> r.value >= 0
    ensures r == Unparsable(Empty) <==> s == []
    ensures r.Parsed? <==> (s != [] && AllDigits(s)) || (|s| > 1 && s[0] == '+' && AllDigits(s[1..]))
    ensures r.Parsed? && s[0] != '+' ==> r.value == DigitsValue(s)
    ensures r.Parsed? && s[0] == '+' ==> r.value == DigitsValue(s[1..])
  {
    if s == [] then Unparsable(Empty)
    else
      var k := if s[0] == '+' then 1 else 0;
      var digits := s[k..];
      if digits != [] && AllDigits(digits) then Parsed(DigitsValue(digits))
      else
        assert !IsDigit('+');
        Unparsable(InvalidDigit)
  }

  /** Rust's signed parse: an optional '+' or '-' and then at least one
      digit; a lone sign is an invalid digit. */
  function ParseSigned(s: string): (r: ParseResult)
    ensures r == Unparsable(Empty) <==> s == []
    ensures r.Parsed? && r.value < 0 ==> s[0] == '-'
    ensures s != [] && s[0] != '-' ==> r == ParseUnsigned(s)
    ensures s != [] && s[0] == '-' ==>
      && (r.Parsed? <==> |s| > 1 && AllDigits(s[1..]))
      && (r.Parsed? ==> r.value == -(DigitsValue(s[1..]) as int))
      && (r.Unparsable? ==> r.kind == InvalidDigit)
  {
    if s == [] then Unparsable(Empty)
    else if s[0] == '-' then
      var digits := s[1..];
      if digits != [] && AllDigits(digits) then Parsed(-(DigitsValue(digits) as int))
      else Unparsable(InvalidDigit)
    else ParseUnsigned(s)
  }

  function DigitChar(d: nat): char
    requires d < 10
  {
    ('0' as int + d) as char
  }

  /** The decimal rendering of a natural number, without leading zeros. */
  function ShowNat(n: nat): string
  {
    if n < 10 then [DigitChar(n)] else ShowNat(n / 10) + [DigitChar(n % 10)]
  }

  /** The decimal rendering of an integer, with a '-' when negative. */
  function ShowInt(i: int): string
  {
    if i < 0 then "-" + ShowNat(-i) else ShowNat(i)
  }

  lemma {:induction false} ShowNatDigits(n: nat)
    ensures ShowNat(n) != [] && AllDigits(ShowNat(n)) && DigitsValue(ShowNat(n)) == n
    ensures ShowNat(n)[0] != '+' && ShowNat(n)[0] != '-'
  {
    if n >= 10 {
      ShowNatDigits(n / 10);
      var s := ShowNat(n);
      assert s[..|s| - 1] == ShowNat(n / 10);
    }
  }

  /** Parsing inverts rendering for every natural number. */
  lemma ParseShowNat(n: nat)
    ensures ParseUnsigned(ShowNat(n)) == Parsed(n)
  {
    ShowNatDigits(n);
  }

  /** A leading '+' is accepted and changes nothing. */
  lemma ParsePlusShowNat(n: nat)
    ensures ParseUnsigned("+" + ShowNat(n)) == Parsed(n)
  {
    ShowNatDigits(n);
    assert ("+" + ShowNat(n))[1..] == ShowNat(n);
  }

  /** Parsing inverts rendering for every integer, negative ones included. */
  lemma ParseShowInt(i: int)
    ensures ParseSigned(ShowInt(i)) == Parsed(i)
  {
    if i < 0 {
      ShowNatDigits(-i);
      assert ShowInt(i)[1..] == ShowNat(-i);
    } else {
      ParseShowNat(i);
      ShowNatDigits(i);
    }
  }

  /** An unsigned parse never accepts a minus sign. */
  lemma UnsignedRejectsMinus(s: string)
    requires s != [] && s[0] == '-'
    ensures ParseUnsigned(s) == Unparsable(InvalidDigit)
  {
    assert !IsDigit(s[0]);
  }
}
