/** String splitting as the option parser uses it: `str::split` on one
    character, and `str::lines`. */
module Text {
  import opened Wrappers

  /** Index of the first occurrence of `c` in `s`, if there is one. */
  function IndexOf(s: string, c: char): (r: Option<nat>)
    ensures r.Some? ==> r.value < |s| && s[r.value] == c && c !in s[..r.value]
    ensures r.None? <==> c !in s
  {
    if s == [] then None
    else if s[0] == c then Some(0)
    else
      match IndexOf(s[1..], c)
      case None => None
      case Some(i) =>
        assert s[..i + 1] == [s[0]] + s[1..][..i];
        Some(i + 1)
  }

  lemma IndexOfAfterPrefix(a: string, c: char, rest: string)
    requires c !in a
    ensures IndexOf(a + [c] + rest, c) == Some(|a|)
  {
    var s := a + [c] + rest;
    assert s[..|a|] == a;
    assert s[|a|] == c;
  }

  /** Rust's `str::split` with a single-character separator: every piece
      between separators, including empty ones at either end. */
  function Split(s: string, sep: char): (r: seq<string>)
    ensures |r| >= 1
    ensures forall i :: 0 <= i < |r| ==> sep !in r[i]
    decreases |s|
  {
    match IndexOf(s, sep)
    case None => [s]
    case Some(i) => [s[..i]] + Split(s[i + 1..], sep)
  }

  /** The pieces put back together, one separator between neighbours. */
  function Join(parts: seq<string>, sep: char): string
  {
    if parts == [] then []
    else if |parts| == 1 then parts[0]
    else parts[0] + [sep] + Join(parts[1..], sep)
  }

  /** Splitting loses nothing: the pieces rejoined give back the input. */
  lemma {:induction false} JoinSplit(s: string, sep: char)
    ensures Join(Split(s, sep), sep) == s
    decreases |s|
  {
    match IndexOf(s, sep)
    case None =>
    case Some(i) =>
      var rest := Split(s[i + 1..], sep);
      JoinSplit(s[i + 1..], sep);
      assert Split(s, sep) == [s[..i]] + rest;
      assert s == s[..i] + [sep] + s[i + 1..];
  }

  /** Splitting a join of separator-free pieces recovers the pieces. */
  lemma {:induction false} SplitJoin(parts: seq<string>, sep: char)
    requires |parts| >= 1
    requires forall i :: 0 <= i < |parts| ==> sep !in parts[i]
    ensures Split(Join(parts, sep), sep) == parts
  {
    if |parts| > 1 {
      var head, tail := parts[0], parts[1..];
      var rest := Join(tail, sep);
      var s := head + [sep] + rest;
      assert Join(parts, sep) == s;
      IndexOfAfterPrefix(head, sep, rest);
      assert s[..|head|] == head;
      assert s[|head| + 1..] == rest;
      assert Split(s, sep) == [head] + Split(rest, sep);
      SplitJoin(tail, sep);
      assert parts == [head] + tail;
    }
  }

  /** A line with one trailing carriage return removed, as `str::lines`
      does for a line ended by "\r\n". */
  function StripCR(line: string): string
  {
    if |line| > 0 && line[|line| - 1] == '\r' then line[..|line| - 1] else line
  }

  predicate EndsWithCR(line: string)
  {
    |line| > 0 && line[|line| - 1] == '\r'
  }

  /** Rust's `str::lines`: lines end at "\n" or "\r\n"; the final line
      needs no terminator, and a final terminator adds no empty line. */
  function Lines(s: string): (r: seq<string>)
    ensures forall i :: 0 <= i < |r| ==> '\n' !in r[i]
    ensures r == [] <==> s == []
    decreases |s|
  {
    if s == [] then []
    else
      match IndexOf(s, '\n')
      case None => [s]
      case Some(i) =>
        var line := s[..i];
        assert forall k :: 0 <= k < |StripCR(line)| ==> StripCR(line)[k] == line[k];
        [StripCR(line)] + Lines(s[i + 1..])
  }

  /** Every line written out with its "\n" terminator. */
  function Unlines(lines: seq<string>): string
  {
    if lines == [] then [] else lines[0] + "\n" + Unlines(lines[1..])
  }

  /** The first line runs up to the first newline and loses a trailing
      carriage return; the rest of the text is split independently. */
  lemma LinesFirst(line: string, rest: string)
    requires '\n' !in line
    ensures Lines(line + "\n" + rest) == [StripCR(line)] + Lines(rest)
  {
    var s := line + "\n" + rest;
    IndexOfAfterPrefix(line, '\n', rest);
    assert s[..|line|] == line;
    assert s[|line| + 1..] == rest;
  }

  /** A line followed by "\r\n" is the line itself. */
  lemma LinesFirstCRLF(line: string, rest: string)
    requires '\n' !in line
    ensures Lines(line + "\r\n" + rest) == [line] + Lines(rest)
  {
    assert line + "\r\n" + rest == (line + "\r") + "\n" + rest;
    LinesFirst(line + "\r", rest);
    assert StripCR(line + "\r") == line;
  }

  /** Text that does not end in a newline is one last, unterminated line. */
  lemma LinesLast(line: string)
    requires line != [] && '\n' !in line
    ensures Lines(line) == [line]
  {
  }

  /** `str::lines` inverts writing every line with a terminator, as long as
      no line holds a newline or ends in a carriage return. */
  lemma {:induction false} LinesOfUnlines(lines: seq<string>)
    requires forall i :: 0 <= i < |lines| ==> '\n' !in lines[i] && !EndsWithCR(lines[i])
    ensures Lines(Unlines(lines)) == lines
  {
    if lines != [] {
      LinesFirst(lines[0], Unlines(lines[1..]));
      LinesOfUnlines(lines[1..]);
    }
  }

  /** "A final trailing newline adds no empty line": appending one newline
      to text that ends in an ordinary character leaves its lines as they
      were. */
  lemma {:induction false} FinalNewlineAddsNoLine(s: string)
    requires s != [] && s[|s| - 1] != '\n' && s[|s| - 1] != '\r'
    ensures Lines(s + "\n") == Lines(s)
    decreases |s|
  {
    match IndexOf(s, '\n')
    case None =>
      LinesFirst(s, []);
      assert !EndsWithCR(s);
    case Some(i) =>
      var line, rest := s[..i], s[i + 1..];
      assert s == line + "\n" + rest;
      assert s + "\n" == line + "\n" + (rest + "\n");
      LinesFirst(line, rest + "\n");
      LinesFirst(line, rest);
      assert rest != [] && rest[|rest| - 1] == s[|s| - 1];
      FinalNewlineAddsNoLine(rest);
  }
}
