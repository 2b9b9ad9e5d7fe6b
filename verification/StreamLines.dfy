/** What the client strips from a line, and how the lines make up the stream. */
module StreamLines {
  import opened Framing

  /** Whitespace as the client strips it. */
  predicate White(c: char) {
    c == ' ' || c == '\t' || c == '\n' || c as int == 11 || c as int == 12 || c == '\r'
  }

  predicate AllWhite(text: string) {
    forall i | 0 <= i < |text| :: White(text[i])
  }

  lemma {:induction false} TrimLeftMeaning(text: string) returns (left: string)
    ensures text == left + TrimLeft(text) && AllWhite(left)
    ensures TrimLeft(text) != "" ==> !White(TrimLeft(text)[0])
  {
    left := "";
    if text != "" && Whitespace(text[0]) {
      left := TrimLeftMeaning(text[1..]);
      left := [text[0]] + left;
    }
  }

  lemma {:induction false} TrimRightMeaning(text: string) returns (right: string)
    ensures text == TrimRight(text) + right && AllWhite(right)
    ensures TrimRight(text) != "" ==> !White(TrimRight(text)[|TrimRight(text)| - 1])
    decreases |text|
  {
    right := "";
    if text != "" && Whitespace(text[|text| - 1]) {
      right := TrimRightMeaning(text[..|text| - 1]);
      right := right + [text[|text| - 1]];
    }
  }

  /** What is left between whitespace that is stripped begins and ends with something else, and
      nothing but whitespace is stripped. */
  lemma {:induction false} TrimMeaning(text: string)
    ensures exists left, right :: text == left + Trim(text) + right && AllWhite(left) && AllWhite(right)
    ensures Trim(text) != "" ==> !White(Trim(text)[0]) && !White(Trim(text)[|Trim(text)| - 1])
  {
    var left := TrimLeftMeaning(text);
    var right := TrimRightMeaning(TrimLeft(text));
    assert text == left + Trim(text) + right;
    if Trim(text) != "" { assert TrimLeft(text)[0] == Trim(text)[0]; }
  }

  // ----- Lines

  /** The lines, each followed by its newline. */
  function Terminated(lines: seq<string>): string {
    if lines == [] then "" else lines[0] + "\n" + Terminated(lines[1..])
  }

  predicate Unbroken(line: string) {
    forall i | 0 <= i < |line| :: line[i] != '\n'
  }

  lemma {:induction false} TerminatedMore(line: string, lines: seq<string>)
    ensures Terminated([line] + lines) == line + "\n" + Terminated(lines)
  {
    assert ([line] + lines)[0] == line && ([line] + lines)[1..] == lines;
  }

  lemma JoinTwice(a: string, b: string, c: string)
    ensures a + b + c == a + (b + c)
  {}

  lemma {:induction false} FirstLine(stream: string)
    requires LineLength(stream) < |stream|
    ensures var n := LineLength(stream);
            && stream == stream[..n] + "\n" + stream[n + 1..]
            && Lines(stream) == [stream[..n]] + Lines(stream[n + 1..])
            && Remainder(stream) == Remainder(stream[n + 1..])
  {}

  lemma {:induction false} LinesJoin(stream: string)
    ensures stream == Terminated(Lines(stream)) + Remainder(stream)
    decreases |stream|
  {
    var n := LineLength(stream);
    if n < |stream| {
      var line, rest := stream[..n], stream[n + 1..];
      FirstLine(stream);
      LinesJoin(rest);
      TerminatedMore(line, Lines(rest));
      JoinTwice(line + "\n", Terminated(Lines(rest)), Remainder(rest));
    }
  }

  lemma {:induction false} LinesUnbroken(stream: string)
    ensures forall i | 0 <= i < |Lines(stream)| :: Unbroken(Lines(stream)[i])
    ensures Unbroken(Remainder(stream))
    decreases |stream|
  {
    var n := LineLength(stream);
    if n < |stream| { LinesUnbroken(stream[n + 1..]); }
  }

  /** Lines and remainder are the whole stream, cut at every newline. */
  lemma {:induction false} LinesMeaning(stream: string)
    ensures stream == Terminated(Lines(stream)) + Remainder(stream)
    ensures forall i | 0 <= i < |Lines(stream)| :: Unbroken(Lines(stream)[i])
    ensures Unbroken(Remainder(stream))
  {
    LinesJoin(stream);
    LinesUnbroken(stream);
  }
}
