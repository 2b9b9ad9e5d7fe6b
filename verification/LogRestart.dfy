/** The status log as its readers see it: line by line, and after a restart. */
module LogRestart {
  import opened Options
  import opened Csv
  import opened Json
  import opened LogColumns
  import opened LogFile

  // ----- The file as a reader sees it

  function FirstLine(text: string): string {
    if text == "" || text[0] == '\n' then "" else [text[0]] + FirstLine(text[1..])
  }

  lemma {:induction false} FirstLineEnds(line: string, rest: string)
    requires !Contains(line, '\n')
    ensures FirstLine(line + "\n" + rest) == line
  {
    var text := line + "\n" + rest;
    if line != "" {
      assert text[0] == line[0] && text[1..] == line[1..] + "\n" + rest;
      assert !Contains(line[1..], '\n') by {
        assert forall i | 0 <= i < |line[1..]| :: line[1..][i] == line[i + 1];
      }
      FirstLineEnds(line[1..], rest);
    }
  }

  lemma FirstLineShorter(text: string)
    ensures |FirstLine(text)| <= |text|
  {}

  /** The records of a text, read line by line; unterminated text ends the reading. */
  function ReadRecords(text: string): Option<seq<seq<string>>>
    decreases |text|
  {
    FirstLineShorter(text);
    if text == "" then Some([])
    else if |FirstLine(text)| == |text| then None
    else match (Parse(FirstLine(text)), ReadRecords(text[|FirstLine(text)| + 1..]))
      case (Some(record), Some(records)) => Some([record] + records)
      case _ => None
  }

  lemma ReadLine(record: seq<string>, rest: string)
    requires record != [] && !Contains(Record(record), '\n')
    ensures ReadRecords(Record(record) + "\n" + rest) ==
            (match ReadRecords(rest) case Some(records) => Some([record] + records) case None => None)
  {
    var text := Record(record) + "\n" + rest;
    FirstLineEnds(Record(record), rest);
    PrintParseRoundTrip(record);
    assert text[|Record(record)| + 1..] == rest;
  }

  lemma {:induction false} ReadRows(rows: seq<seq<string>>)
    requires forall r | 0 <= r < |rows| :: rows[r] != [] && OneLine(Record(rows[r]))
    ensures ReadRecords(RowLines(rows)) == Some(rows)
  {
    if rows != [] {
      ReadRows(rows[1..]);
      ReadLine(rows[0], RowLines(rows[1..]));
      assert [rows[0]] + rows[1..] == rows;
    }
  }

  predicate NewlineFree(columns: seq<string>) {
    forall c | 0 <= c < |columns| :: !Contains(columns[c], '\n')
  }

  lemma HeaderIsOneLine(columns: seq<string>)
    requires NewlineFree(columns)
    ensures !Contains(Record(HeaderValues(columns)), '\n')
  {
    var values := HeaderValues(columns);
    forall i | 0 <= i < |values| ensures !Contains(values[i], '\n') {
      if 0 < i <= |columns| { assert values[i] == columns[i - 1]; }
    }
    RecordKeepsOut(values, '\n');
  }

  /** Reading an aligned file line by line gives back the header and every row ever
      appended since the last truncation, in order. */
  lemma FileReadsBack(log: Log)
    requires Aligned(log) && NewlineFree(log.columns)
    ensures ReadRecords(File(log)) ==
            Some(if log.rows == [] then [] else [HeaderValues(log.columns)] + log.rows)
  {
    if log.rows != [] {
      HeaderIsOneLine(log.columns);
      ReadRows(log.rows);
      ReadLine(HeaderValues(log.columns), RowLines(log.rows));
    }
  }

  // ----- Restarting from the header

  function StripCr(line: string): string {
    if line != "" && line[|line| - 1] == '\r' then line[..|line| - 1] else line
  }

  /** The names between the first and the last field of a header line are acceptable. */
  predicate AcceptableNames(names: seq<string>) {
    Distinct(names) && forall i | 0 <= i < |names| :: names[i] != "" && !Reserved(names[i])
  }

  /** The columns a restart takes from the file; `None` is the error return. */
  function HeaderColumns(file: string): Option<seq<string>> {
    if file == "" then Some([])
    else if file[|file| - 1] != '\n' then None
    else match Parse(StripCr(FirstLine(file)))
      case None => None
      case Some(fields) =>
        if |fields| < 2 || fields[0] != TIMESTAMP || fields[|fields| - 1] != EXTRA then None
        else if AcceptableNames(fields[1..|fields| - 1]) then Some(fields[1..|fields| - 1])
        else None
  }

  /** Text cut off inside a quoted value cannot be parsed. */
  lemma {:induction false} CutQuotedValue(value: string, rest: string, field: string, fields: seq<string>)
    requires Contains(value, '\n')
    ensures Scan(FirstLine(Doubled(value) + rest), field, true, fields) == None
  {
    var text := Doubled(value) + rest;
    if value[0] != '\n' {
      var tail := Doubled(value[1..]) + rest;
      assert Contains(value[1..], '\n') by {
        var i :| 0 <= i < |value| && value[i] == '\n';
        assert value[1..][i - 1] == '\n';
      }
      CutQuotedValue(value[1..], rest, field + [value[0]], fields);
      if value[0] == '"' {
        assert text[1..] == "\"" + tail && ("\"" + tail)[1..] == tail;
        assert FirstLine(text) == "\"" + FirstLine("\"" + tail) == "\"" + ("\"" + FirstLine(tail));
        assert FirstLine(text)[2..] == FirstLine(tail);
      } else {
        assert text[1..] == tail;
        assert FirstLine(text)[1..] == FirstLine(tail);
      }
    }
  }

  lemma {:induction false} FirstLineSkips(line: string, rest: string)
    requires !Contains(line, '\n')
    ensures FirstLine(line + rest) == line + FirstLine(rest)
  {
    if line == "" {
      assert line + rest == rest;
    } else {
      assert (line + rest)[1..] == line[1..] + rest;
      assert forall i | 0 <= i < |line[1..]| :: line[1..][i] == line[i + 1];
      FirstLineSkips(line[1..], rest);
    }
  }

  lemma CutField(value: string, rest: string, fields: seq<string>)
    requires Contains(value, '\n')
    ensures Scan(FirstLine(Field(value) + rest), "", false, fields) == None
  {
    var text := Doubled(value) + ("\"" + rest);
    assert Field(value) + rest == "\"" + text;
    CutQuotedValue(value, "\"" + rest, "", fields);
    assert ("\"" + text)[1..] == text;
    assert FirstLine("\"" + text)[1..] == FirstLine(text);
  }

  lemma SkipField(value: string, rest: string, fields: seq<string>)
    requires !Contains(value, '\n')
    ensures Scan(FirstLine(Field(value) + ("," + rest)), "", false, fields) ==
            Scan(FirstLine(rest), "", false, fields + [value])
  {
    var tail := "," + rest;
    DoubledKeepsOut(value, '\n');
    FirstLineSkips(Field(value), tail);
    assert tail[1..] == rest;
    assert FirstLine(tail) == "," + FirstLine(rest) && FirstLine(tail)[1..] == FirstLine(rest);
    ScanField(Field(value), value, FirstLine(tail), fields);
  }

  lemma RecordSplits(values: seq<string>)
    requires |values| > 1
    ensures Record(values) == Field(values[0]) + ("," + Record(values[1..]))
  {
    assert Fields(values)[1..] == Fields(values[1..]);
  }

  lemma CutStep(value: string, rest: string, fields: seq<string>)
    requires Contains(value, '\n') || Scan(FirstLine(rest), "", false, fields + [value]) == None
    ensures Scan(FirstLine(Field(value) + ("," + rest)), "", false, fields) == None
  {
    if Contains(value, '\n') {
      CutField(value, "," + rest, fields);
    } else {
      SkipField(value, rest, fields);
    }
  }

  /** A record with a line break inside a value loses its first line to that cut. */
  lemma {:induction false} CutRecord(values: seq<string>, i: nat, rest: string, fields: seq<string>)
    requires i < |values| && Contains(values[i], '\n')
    ensures Scan(FirstLine(Record(values) + rest), "", false, fields) == None
  {
    if |values| == 1 {
      CutField(values[0], rest, fields);
    } else {
      var more := Record(values[1..]) + rest;
      if i > 0 {
        CutRecord(values[1..], i - 1, rest, fields + [values[0]]);
      }
      CutStep(values[0], more, fields);
      assert Record(values) + rest == Field(values[0]) + ("," + more) by {
        RecordSplits(values);
      }
    }
  }

  /** Dropping a final carriage return does not close an open quote. */
  lemma {:induction false} CarriageReturnKeepsQuote(line: string, field: string, quoted: bool, fields: seq<string>)
    requires Scan(line + "\r", field, quoted, fields) == None
    ensures Scan(line, field, quoted, fields) == None
    decreases |line|
  {
    var text := line + "\r";
    if line == "" {
      assert text == "\r" && text[1..] == "";
    } else {
      assert text[0] == line[0] && text[1..] == line[1..] + "\r";
      if quoted && line[0] == '"' && |line| > 1 && line[1] == '"' {
        assert text[2..] == line[2..] + "\r";
        CarriageReturnKeepsQuote(line[2..], field + ['"'], true, fields);
      } else if quoted && line[0] == '"' {
        CarriageReturnKeepsQuote(line[1..], field, false, fields);
      } else if quoted {
        CarriageReturnKeepsQuote(line[1..], field + [line[0]], true, fields);
      } else if line[0] == ',' {
        CarriageReturnKeepsQuote(line[1..], "", false, fields + [field]);
      } else if line[0] == '"' && field == "" {
        CarriageReturnKeepsQuote(line[1..], field, true, fields);
      } else {
        CarriageReturnKeepsQuote(line[1..], field + [line[0]], false, fields);
      }
    }
  }

  lemma ParseStripped(line: string)
    requires Parse(line) == None
    ensures Parse(StripCr(line)) == None
  {
    if line != "" && line[|line| - 1] == '\r' {
      assert line == StripCr(line) + "\r";
      CarriageReturnKeepsQuote(StripCr(line), "", false, []);
    }
  }

  /** A header line never ends with a carriage return. */
  lemma {:induction false} RecordEndsWithLast(values: seq<string>, last: string)
    requires values != [] && values[|values| - 1] == last && last != "" && Plain(last)
    ensures Record(values) != "" && Record(values)[|Record(values)| - 1] == last[|last| - 1]
  {
    if |values| > 1 {
      RecordSplits(values);
      RecordEndsWithLast(values[1..], last);
    }
  }

  /** Restart round trip: of a header written for the columns a log can have, a restart
      restores exactly those columns, provided no name is empty or holds a newline.
      Otherwise, and only then, the server refuses its own file. */
  lemma RestartExactly(columns: seq<string>, tail: string)
    requires Distinct(columns) && forall c | 0 <= c < |columns| :: !Reserved(columns[c])
    requires tail == "" || tail[|tail| - 1] == '\n'
    ensures var file := Record(HeaderValues(columns)) + "\n" + tail;
            if NewlineFree(columns) && "" !in columns then HeaderColumns(file) == Some(columns)
            else HeaderColumns(file) == None
  {
    if NewlineFree(columns) {
      CleanHeaderLine(columns, tail);
      assert HeaderValues(columns)[1..|columns| + 1] == columns;
      assert "" in columns ==> exists c :: 0 <= c < |columns| && columns[c] == "";
    } else {
      BrokenHeaderLine(columns, tail);
    }
  }

  lemma CleanLine(values: seq<string>, tail: string)
    requires values != [] && !Contains(Record(values), '\n')
    requires values[|values| - 1] != "" && Plain(values[|values| - 1])
    ensures Parse(StripCr(FirstLine(Record(values) + "\n" + tail))) == Some(values)
  {
    FirstLineEnds(Record(values), tail);
    RecordEndsWithLast(values, values[|values| - 1]);
    PrintParseRoundTrip(values);
  }

  lemma ExtraIsPlain()
    ensures Plain(EXTRA) && EXTRA != ""
  {}

  lemma CleanHeaderLine(columns: seq<string>, tail: string)
    requires NewlineFree(columns)
    ensures Parse(StripCr(FirstLine(Record(HeaderValues(columns)) + "\n" + tail))) == Some(HeaderValues(columns))
  {
    var values := HeaderValues(columns);
    HeaderIsOneLine(columns);
    ExtraIsPlain();
    assert values[|values| - 1] == EXTRA;
    CleanLine(values, tail);
  }

  lemma BrokenHeaderLine(columns: seq<string>, tail: string)
    requires !NewlineFree(columns)
    ensures Parse(StripCr(FirstLine(Record(HeaderValues(columns)) + "\n" + tail))) == None
  {
    var values := HeaderValues(columns);
    var c :| 0 <= c < |columns| && Contains(columns[c], '\n');
    assert values[c + 1] == columns[c];
    assert Record(values) + ("\n" + tail) == Record(values) + "\n" + tail;
    CutRecord(values, c + 1, "\n" + tail, []);
    ParseStripped(FirstLine(Record(values) + "\n" + tail));
  }

  lemma {:induction false} RowLinesEnd(rows: seq<seq<string>>)
    ensures RowLines(rows) == "" || RowLines(rows)[|RowLines(rows)| - 1] == '\n'
  {
    if rows != [] { RowLinesEnd(rows[1..]); }
  }

  /** Restarting over an aligned, non-empty file continues the log as if it had not stopped. */
  lemma RestartContinues(log: Log)
    requires Aligned(log) && log.rows != []
    requires Distinct(log.columns) && forall c | 0 <= c < |log.columns| :: !Reserved(log.columns[c])
    ensures HeaderColumns(File(log)) ==
            (if NewlineFree(log.columns) && "" !in log.columns then Some(log.columns) else None)
  {
    RowLinesEnd(log.rows);
    RestartExactly(log.columns, RowLines(log.rows));
  }
}
