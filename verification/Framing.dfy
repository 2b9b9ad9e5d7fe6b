/** The line framing of the client: how the bytes read from the socket become envelopes.
    `decode` parses one trimmed line and yields `None` unless the line is a JSON object. */
module Framing {
  import opened Options

  const LIMIT: nat := 1024 * 1024

  /** What is left to read after a drain, and what was delivered. */
  datatype Drained<E> = Drained(envelopes: seq<E>, rest: string, aborted: bool)

  /** The index of the first newline; the length of the text if there is none. */
  function LineLength(text: string): (n: nat)
    ensures n <= |text|
    ensures n < |text| ==> text[n] == '\n'
    ensures forall i | 0 <= i < n :: text[i] != '\n'
  {
    if text == "" || text[0] == '\n' then 0
    else
      var n := LineLength(text[1..]);
      assert forall i | 0 < i < n + 1 :: text[i] == text[1..][i - 1];
      n + 1
  }

  predicate Whitespace(c: char) {
    c == ' ' || ('\t' <= c <= '\r')
  }

  function TrimLeft(text: string): string {
    if text != "" && Whitespace(text[0]) then TrimLeft(text[1..]) else text
  }

  function TrimRight(text: string): string {
    if text != "" && Whitespace(text[|text| - 1]) then TrimRight(text[..|text| - 1]) else text
  }

  function Trim(text: string): string {
    TrimRight(TrimLeft(text))
  }

  /** One line: skip it if blank, abort if it is bad, else deliver it before the rest. */
  function Deliver<E>(decode: string -> Option<E>, line: string, rest: string, after: Drained<E>): Drained<E> {
    if Trim(line) == "" then after
    else match decode(Trim(line))
      case None => Drained([], rest, true)
      case Some(envelope) => Drained([envelope] + after.envelopes, after.rest, after.aborted)
  }

  /** The reading loop: deliver whole lines until one is bad or none is left. */
  function Drain<E>(decode: string -> Option<E>, stream: string): Drained<E>
    decreases |stream|
  {
    var n := LineLength(stream);
    if n == |stream| then Drained([], stream, n > LIMIT)
    else if n > LIMIT then Drained([], stream, true)
    else Deliver(decode, stream[..n], stream[n + 1..], Drain(decode, stream[n + 1..]))
  }

  /** Reads arriving one after the other; an abort closes the connection. */
  function Feed<E>(decode: string -> Option<E>, buffer: string, chunks: seq<string>): Drained<E>
    decreases |chunks|
  {
    if chunks == [] then Drained([], buffer, false)
    else
      var first := Drain(decode, buffer + chunks[0]);
      if first.aborted then first
      else
        var after := Feed(decode, first.rest, chunks[1..]);
        after.(envelopes := first.envelopes + after.envelopes)
  }

  function Concat(chunks: seq<string>): string {
    if chunks == [] then "" else chunks[0] + Concat(chunks[1..])
  }

  // ----- Chunking does not matter

  lemma {:induction false} LineLengthPrefix(text: string, more: string)
    ensures LineLength(text) < |text| ==> LineLength(text + more) == LineLength(text)
    ensures LineLength(text) == |text| ==> LineLength(text + more) == |text| + LineLength(more)
  {
    if text == "" {
      assert text + more == more;
    } else if text[0] != '\n' {
      assert (text + more)[1..] == text[1..] + more;
      LineLengthPrefix(text[1..], more);
    }
  }

  /** `whole` delivers what `first` did and, unless that aborted, what `after` does next. */
  predicate Continues<E(==)>(whole: Drained<E>, first: Drained<E>, after: Drained<E>) {
    if first.aborted then whole.aborted && whole.envelopes == first.envelopes
    else whole == Drained(first.envelopes + after.envelopes, after.rest, after.aborted)
  }

  lemma DeliverContinues<E>(decode: string -> Option<E>, line: string, rest: string, more: string,
                            whole: Drained<E>, first: Drained<E>, after: Drained<E>)
    requires Continues(whole, first, after)
    ensures Continues(Deliver(decode, line, rest + more, whole), Deliver(decode, line, rest, first), after)
  {
    if Trim(line) != "" && decode(Trim(line)).Some? {
      var head := [decode(Trim(line)).value];
      assert head + (first.envelopes + after.envelopes) == head + first.envelopes + after.envelopes;
    }
  }

  /** A drain may stop anywhere and go on with what it left. */
  lemma {:induction false} DrainSplits<E>(decode: string -> Option<E>, stream: string, more: string)
    ensures Continues(Drain(decode, stream + more), Drain(decode, stream),
                      Drain(decode, Drain(decode, stream).rest + more))
    decreases |stream|
  {
    var n := LineLength(stream);
    LineLengthPrefix(stream, more);
    if n < |stream| && n <= LIMIT {
      var line, tail := stream[..n], stream[n + 1..];
      assert (stream + more)[..n] == line && (stream + more)[n + 1..] == tail + more;
      DrainSplits(decode, tail, more);
      DeliverContinues(decode, line, tail, more, Drain(decode, tail + more), Drain(decode, tail),
                       Drain(decode, Drain(decode, tail).rest + more));
    } else if n == |stream| <= LIMIT {
      assert [] + Drain(decode, stream + more).envelopes == Drain(decode, stream + more).envelopes;
    }
  }

  lemma {:induction false} DrainLeavesNothingToDo<E>(decode: string -> Option<E>, stream: string)
    requires !Drain(decode, stream).aborted
    ensures Drain(decode, Drain(decode, stream).rest) == Drained([], Drain(decode, stream).rest, false)
    decreases |stream|
  {
    var n := LineLength(stream);
    if n < |stream| {
      DrainLeavesNothingToDo(decode, stream[n + 1..]);
    }
  }

  /** Framing does not depend on how the stream is cut into reads: the envelopes and the
      verdict are those of one read of everything, and so is the rest unless it aborts. */
  lemma {:induction false} ChunkingIrrelevant<E>(decode: string -> Option<E>, buffer: string, chunks: seq<string>)
    requires Drain(decode, buffer) == Drained([], buffer, false)
    ensures var fed := Feed(decode, buffer, chunks);
            var whole := Drain(decode, buffer + Concat(chunks));
            && fed.envelopes == whole.envelopes
            && fed.aborted == whole.aborted
            && (!fed.aborted ==> fed.rest == whole.rest)
    decreases |chunks|
  {
    if chunks == [] {
      assert buffer + Concat(chunks) == buffer;
    } else {
      var stream, tail := buffer + chunks[0], Concat(chunks[1..]);
      assert buffer + Concat(chunks) == stream + tail;
      DrainSplits(decode, stream, tail);
      var first := Drain(decode, stream);
      if !first.aborted {
        DrainLeavesNothingToDo(decode, stream);
        ChunkingIrrelevant(decode, first.rest, chunks[1..]);
      }
    }
  }

  /** From an empty buffer, any two cuts of one stream deliver the same. */
  lemma FramingOfStream<E>(decode: string -> Option<E>, left: seq<string>, right: seq<string>)
    requires Concat(left) == Concat(right)
    ensures Feed(decode, "", left).envelopes == Feed(decode, "", right).envelopes
    ensures Feed(decode, "", left).aborted == Feed(decode, "", right).aborted
  {
    ChunkingIrrelevant(decode, "", left);
    ChunkingIrrelevant(decode, "", right);
  }

  // ----- What a stream means

  /** The terminated lines of a stream, and what follows the last newline. */
  function Lines(stream: string): seq<string>
    decreases |stream|
  {
    var n := LineLength(stream);
    if n == |stream| then [] else [stream[..n]] + Lines(stream[n + 1..])
  }

  function Remainder(stream: string): string
    decreases |stream|
  {
    var n := LineLength(stream);
    if n == |stream| then stream else Remainder(stream[n + 1..])
  }

  predicate Blank(line: string) {
    Trim(line) == ""
  }

  predicate Bad<E>(decode: string -> Option<E>, line: string) {
    |line| > LIMIT || (!Blank(line) && decode(Trim(line)).None?)
  }

  /** The envelopes of good lines; blank lines carry none. */
  function Decoded<E>(decode: string -> Option<E>, lines: seq<string>): seq<E>
    requires forall i | 0 <= i < |lines| :: !Bad(decode, lines[i])
  {
    if lines == [] then []
    else
      assert !Bad(decode, lines[0]);
      (if Blank(lines[0]) then [] else [decode(Trim(lines[0])).value]) + Decoded(decode, lines[1..])
  }

  /** The number of lines before the first bad one. */
  function GoodPrefix<E>(decode: string -> Option<E>, lines: seq<string>): (k: nat)
    ensures k <= |lines|
    ensures forall i | 0 <= i < k :: !Bad(decode, lines[i])
    ensures k < |lines| ==> Bad(decode, lines[k])
  {
    if lines == [] || Bad(decode, lines[0]) then 0
    else
      var k := GoodPrefix(decode, lines[1..]);
      assert forall i | 0 < i < k + 1 :: lines[i] == lines[1..][i - 1];
      k + 1
  }

  /** The verdict, said without the loop: abort exactly if some terminated line is longer
      than the limit or not a JSON object, or the unterminated rest is longer than the
      limit; deliver exactly the envelopes of the lines before the first bad one. */
  lemma {:induction false} DrainMeaning<E>(decode: string -> Option<E>, stream: string)
    ensures var lines := Lines(stream);
            var k := GoodPrefix(decode, lines);
            && Drain(decode, stream).envelopes == Decoded(decode, lines[..k])
            && (Drain(decode, stream).aborted <==> k < |lines| || |Remainder(stream)| > LIMIT)
    decreases |stream|
  {
    var n := LineLength(stream);
    var lines := Lines(stream);
    if n < |stream| {
      var more := Lines(stream[n + 1..]);
      assert lines[0] == stream[..n] && lines[1..] == more;
      if !Bad(decode, lines[0]) {
        DrainMeaning(decode, stream[n + 1..]);
        var k := GoodPrefix(decode, more);
        assert GoodPrefix(decode, lines) == k + 1;
        assert lines[..k + 1][0] == lines[0] && lines[..k + 1][1..] == more[..k];
      } else {
        assert lines[..0] == [];
      }
    } else {
      assert lines[..0] == [];
    }
  }

  // ----- What an oversized message leaves behind

  /** Some line of the stream, or what follows the last newline, is over the limit. */
  predicate Overlong(stream: string)
    decreases |stream|
  {
    var n := LineLength(stream);
    n > LIMIT || (n < |stream| && Overlong(stream[n + 1..]))
  }

  predicate SomeOverLimit(lines: seq<string>) {
    exists i :: 0 <= i < |lines| && |lines[i]| > LIMIT
  }

  lemma SomeOfMore(line: string, lines: seq<string>)
    ensures SomeOverLimit([line] + lines) <==> |line| > LIMIT || SomeOverLimit(lines)
  {
    var more := [line] + lines;
    if i :| 0 <= i < |lines| && |lines[i]| > LIMIT { assert |more[i + 1]| > LIMIT; }
    if |line| > LIMIT { assert |more[0]| > LIMIT; }
    if i :| 0 < i < |more| && |more[i]| > LIMIT { assert |lines[i - 1]| > LIMIT; }
  }

  /** Said without the recursion. */
  lemma {:induction false} OverlongMeaning(stream: string)
    ensures Overlong(stream) <==> SomeOverLimit(Lines(stream)) || |Remainder(stream)| > LIMIT
    decreases |stream|
  {
    var n := LineLength(stream);
    if n < |stream| {
      OverlongMeaning(stream[n + 1..]);
      SomeOfMore(stream[..n], Lines(stream[n + 1..]));
    }
  }

  /** More bytes do not mend an overlong stream. */
  lemma {:induction false} OverlongGrows(stream: string, more: string)
    requires Overlong(stream)
    ensures Overlong(stream + more)
    decreases |stream|
  {
    var n := LineLength(stream);
    LineLengthPrefix(stream, more);
    if n < |stream| && n <= LIMIT {
      assert (stream + more)[n + 1..] == stream[n + 1..] + more;
      OverlongGrows(stream[n + 1..], more);
    }
  }

  /** An overlong stream is aborted sooner or later, and what an abort leaves is overlong again:
      the buffer is not cleared when the connection is made anew. */
  lemma {:induction false} OverlongStays<E>(decode: string -> Option<E>, stream: string)
    requires Overlong(stream)
    ensures Drain(decode, stream).aborted && Overlong(Drain(decode, stream).rest)
    decreases |stream|
  {
    var n := LineLength(stream);
    if n < |stream| && n <= LIMIT {
      OverlongStays(decode, stream[n + 1..]);
    }
  }

  /** Of any other stream an abort takes away the line that is no JSON object, and no abort
      makes it overlong. */
  lemma {:induction false} OthersShrink<E>(decode: string -> Option<E>, stream: string)
    requires !Overlong(stream)
    ensures !Overlong(Drain(decode, stream).rest)
    ensures Drain(decode, stream).aborted ==> |Drain(decode, stream).rest| + 2 <= |stream|
    decreases |stream|
  {
    var n := LineLength(stream);
    if n < |stream| {
      OthersShrink(decode, stream[n + 1..]);
      BlankIfEmpty(stream[..n]);
    }
  }

  lemma BlankIfEmpty(line: string)
    ensures line == "" ==> Trim(line) == ""
  {}

  /** A stream whose first line is complete. */
  lemma FirstOfMore<E>(decode: string -> Option<E>, stream: string, more: string)
    requires LineLength(stream) < |stream| && LineLength(stream) <= LIMIT
    ensures var line, rest := stream[..LineLength(stream)], stream[LineLength(stream) + 1..] + more;
            && Drain(decode, stream + more) == Deliver(decode, line, rest, Drain(decode, rest))
            && (Overlong(stream + more) <==> Overlong(rest))
  {
    var n := LineLength(stream);
    LineLengthPrefix(stream, more);
    assert (stream + more)[..n] == stream[..n] && (stream + more)[n + 1..] == stream[n + 1..] + more;
  }

  /** A stream of one line. */
  lemma LastLine<E>(decode: string -> Option<E>, line: string)
    requires LineLength(line) == |line| <= LIMIT
    ensures !Overlong(line + "\n")
    ensures Drain(decode, line + "\n") == Deliver(decode, line, "", Drained([], "", false))
  {
    var text := line + "\n";
    LineLengthPrefix(line, "\n");
    assert LineLength("\n") == 0 && text[..|line|] == line && text[|line| + 1..] == "";
  }

  /** A newline ends the last line; a stream that ends so leaves nothing behind. */
  lemma {:induction false} NewlineEnds<E>(decode: string -> Option<E>, stream: string)
    requires !Overlong(stream)
    ensures !Overlong(stream + "\n")
    ensures !Drain(decode, stream + "\n").aborted ==> Drain(decode, stream + "\n").rest == ""
    decreases |stream|
  {
    if LineLength(stream) < |stream| {
      FirstOfMore(decode, stream, "\n");
      NewlineEnds(decode, stream[LineLength(stream) + 1..]);
    } else {
      LastLine(decode, stream);
    }
  }
}
