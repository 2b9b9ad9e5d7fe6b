/** The status log: an append-only CSV file whose first status fixes the columns.  The
    file is a string; the outcomes of the system calls are parameters. */
module StatusLog {
  import opened Csv
  import opened Json
  import opened LogColumns
  import opened LogFile
  import opened LogRestart

  /** What one `write` call reports. */
  datatype WriteOutcome = Wrote(count: nat) | Interrupted | WriteFailed

  /** Which of the other system calls around one record succeed. */
  datatype SystemCalls = SystemCalls(openable: bool, locked: bool, measured: bool, unlocked: bool, closed: bool)

  /** What one append hands to `write`: the header is put in front of an empty file. */
  function Output(file: string, columns: seq<string>, record: string): string {
    (if file == "" then Record(HeaderValues(columns)) + "\n" else "") + record
  }

  lemma {:induction false} SpillGrows(columns: seq<string>, entries: seq<Entry>, entry: Entry)
    ensures Spill(columns, entries + [entry]) ==
            Spill(columns, entries) + (if entry.key in columns then [] else [entry])
  {
    if entries == [] {
      assert (entries + [entry])[1..] == [];
    } else {
      assert (entries + [entry])[1..] == entries[1..] + [entry];
      SpillGrows(columns, entries[1..], entry);
      var head := if entries[0].key in columns then [] else [entries[0]];
      var more := if entry.key in columns then [] else [entry];
      assert head + (Spill(columns, entries[1..]) + more) == head + Spill(columns, entries[1..]) + more;
    }
  }

  lemma {:induction false} RegularKeysGrow(entries: seq<Entry>, entry: Entry)
    ensures RegularKeys(entries + [entry]) ==
            RegularKeys(entries) + (if Reserved(entry.key) then [] else [entry.key])
  {
    if entries == [] {
      assert (entries + [entry])[1..] == [];
    } else {
      assert (entries + [entry])[1..] == entries[1..] + [entry];
      RegularKeysGrow(entries[1..], entry);
      var head := if Reserved(entries[0].key) then [] else [entries[0].key];
      var more := if Reserved(entry.key) then [] else [entry.key];
      assert head + (RegularKeys(entries[1..]) + more) == head + RegularKeys(entries[1..]) + more;
    }
  }

  lemma {:induction false} JoinGrows(texts: seq<string>, last: string)
    requires texts != []
    ensures Join(texts + [last]) == Join(texts) + "," + last
  {
    if |texts| == 1 {
      assert (texts + [last])[1..] == [last];
    } else {
      assert (texts + [last])[1..] == texts[1..] + [last];
      JoinGrows(texts[1..], last);
    }
  }

  lemma RecordGrows(values: seq<string>, last: string)
    requires values != []
    ensures Record(values + [last]) == Record(values) + "," + Field(last)
  {
    assert Fields(values + [last]) == Fields(values) + [Field(last)];
    JoinGrows(Fields(values), Field(last));
  }

  lemma {:induction false} RowLinesGrow(rows: seq<seq<string>>, row: seq<string>)
    requires row != []
    ensures RowLines(rows + [row]) == RowLines(rows) + (Record(row) + "\n")
  {
    if rows == [] {
      assert [] + [row] == [row] && [row][1..] == [];
      assert RowLines([row]) == Record(row) + "\n" + "" == Record(row) + "\n";
    } else {
      assert (rows + [row])[1..] == rows[1..] + [row];
      RowLinesGrow(rows[1..], row);
    }
  }

  /** The characters one append of a status has to bring into the file. */
  function AppendOutput(log: Log, dump: Json -> string, timestamp: string, entries: seq<Entry>): string {
    var columns := if log.columns == [] then FirstColumns(entries) else log.columns;
    Output(File(log), columns, Record(RowValues(dump, timestamp, columns, entries)) + "\n")
  }

  /** They turn the file of the log into the file of the log with the row appended. */
  lemma AppendedFile(log: Log, dump: Json -> string, timestamp: string, entries: seq<Entry>)
    ensures File(AppendTo(log, dump, timestamp, entries)) == File(log) + AppendOutput(log, dump, timestamp, entries)
  {
    var after := AppendTo(log, dump, timestamp, entries);
    RowLinesGrow(log.rows, RowValues(dump, timestamp, after.columns, entries));
  }

  /** How many characters calls with these outcomes bring into the file: an interrupted call is
      repeated, a short one continued, and a failed or empty one ends the writing. */
  function Progress(size: nat, outcomes: seq<WriteOutcome>): (written: nat)
    ensures written <= size
    decreases |outcomes|
  {
    if size == 0 || outcomes == [] then 0
    else match outcomes[0]
      case Interrupted => Progress(size, outcomes[1..])
      case WriteFailed => 0
      case Wrote(count) =>
        if count == 0 then 0 else if count >= size then size else count + Progress(size - count, outcomes[1..])
  }

  /** The characters the calls report as written. */
  function Reported(outcomes: seq<WriteOutcome>): nat {
    if outcomes == [] then 0
    else (if outcomes[0].Wrote? then outcomes[0].count else 0) + Reported(outcomes[1..])
  }

  predicate NoneFails(outcomes: seq<WriteOutcome>) {
    forall i | 0 <= i < |outcomes| :: outcomes[i] != WriteFailed && outcomes[i] != Wrote(0)
  }

  /** Everything is written exactly if calls of which none fails report enough; interruptions
      and short writes do no harm. */
  lemma {:induction false} AllWrittenExactly(size: nat, outcomes: seq<WriteOutcome>)
    ensures Progress(size, outcomes) == size <==>
            exists n: nat :: n <= |outcomes| && NoneFails(outcomes[..n]) && Reported(outcomes[..n]) >= size
    decreases |outcomes|
  {
    if size == 0 {
      assert NoneFails(outcomes[..0]) && Reported(outcomes[..0]) >= size;
    } else if outcomes != [] {
      var count := if outcomes[0].Wrote? then outcomes[0].count else 0;
      var left: nat := if count >= size then 0 else size - count;
      AllWrittenExactly(left, outcomes[1..]);
      if n: nat :| n <= |outcomes| && NoneFails(outcomes[..n]) && Reported(outcomes[..n]) >= size {
        assert n > 0 && outcomes[..n] == [outcomes[0]] + outcomes[1..][..n - 1];
        OneMore(outcomes[0], outcomes[1..][..n - 1]);
        assert NoneFails(outcomes[1..][..n - 1]) && Reported(outcomes[1..][..n - 1]) >= left;
      }
      if Progress(size, outcomes) == size {
        NoFailureFirst(size, outcomes);
        var n: nat :| n <= |outcomes[1..]| && NoneFails(outcomes[1..][..n]) && Reported(outcomes[1..][..n]) >= left;
        assert outcomes[..n + 1] == [outcomes[0]] + outcomes[1..][..n];
        OneMore(outcomes[0], outcomes[1..][..n]);
        assert NoneFails(outcomes[..n + 1]) && Reported(outcomes[..n + 1]) >= size;
      }
    }
  }

  lemma OneMore(first: WriteOutcome, rest: seq<WriteOutcome>)
    ensures NoneFails([first] + rest) <==> first != WriteFailed && first != Wrote(0) && NoneFails(rest)
    ensures Reported([first] + rest) == (if first.Wrote? then first.count else 0) + Reported(rest)
  {
    var all := [first] + rest;
    assert all[0] == first && all[1..] == rest;
    if NoneFails(all) {
      forall i | 0 <= i < |rest| ensures rest[i] != WriteFailed && rest[i] != Wrote(0) { assert rest[i] == all[i + 1]; }
    }
  }

  lemma NoFailureFirst(size: nat, outcomes: seq<WriteOutcome>)
    requires size > 0 && outcomes != [] && Progress(size, outcomes) == size
    ensures outcomes[0] != WriteFailed && outcomes[0] != Wrote(0)
    ensures var count := if outcomes[0].Wrote? then outcomes[0].count else 0;
            var left: nat := if count >= size then 0 else size - count;
            Progress(left, outcomes[1..]) == left
  {}

  /** What one record needs of the calls around the writing. */
  predicate Writable(system: SystemCalls) {
    system.openable && system.locked && system.measured
  }

  class StatusCsvLog {
    const dump: Json -> string
    var columns: seq<string>
    var file: string
    ghost var log: Log

    ghost predicate Valid()
      reads this
    {
      && LineSafe(dump)
      && columns == log.columns
      && file == File(log)
    }

    constructor (dump: Json -> string)
      requires LineSafe(dump)
      ensures Valid() && log == FRESH && this.dump == dump
    {
      this.dump := dump;
      columns := [];
      file := "";
      log := FRESH;
    }

    /** Rotation from outside: the file is cut to nothing while the log stays open. */
    method Truncate()
      requires Valid()
      modifies this
      ensures Valid() && log == Apply(old(log), dump, TruncateToEmpty)
    {
      file := "";
      log := log.(rows := []);
    }

    method WriteAll(data: string, outcomes: seq<WriteOutcome>) returns (ok: bool, offset: nat)
      modifies this`file
      ensures offset <= |data| && file == old(file) + data[..offset]
      ensures ok <==> offset == |data|
      ensures offset == Progress(|data|, outcomes)
    {
      offset := 0;
      var call := 0;
      while offset < |data|
        invariant offset <= |data| && call <= |outcomes|
        invariant file == old(file) + data[..offset]
        invariant Progress(|data|, outcomes) == offset + Progress(|data| - offset, outcomes[call..])
        decreases |outcomes| - call
      {
        if call == |outcomes| {
          return false, offset;
        }
        var outcome := outcomes[call];
        assert outcomes[call..][1..] == outcomes[call + 1..];
        call := call + 1;
        match outcome {
          case Wrote(count) =>
            if count == 0 {
              return false, offset;
            }
            var written := if count < |data| - offset then count else |data| - offset;
            assert data[..offset + written] == data[..offset] + data[offset..offset + written];
            file := file + data[offset..offset + written];
            offset := offset + written;
          case Interrupted =>
          case WriteFailed =>
            return false, offset;
        }
      }
      ok := true;
    }

    method HeaderLine() returns (output: string)
      ensures output == Record(HeaderValues(columns)) + "\n"
    {
      output := TIMESTAMP;
      TimestampIsPlain();
      assert Fields([TIMESTAMP]) == [TIMESTAMP];
      for c := 0 to |columns|
        invariant output == Record([TIMESTAMP] + columns[..c])
      {
        var column := CsvField(columns[c]);
        RecordGrows([TIMESTAMP] + columns[..c], columns[c]);
        assert [TIMESTAMP] + columns[..c] + [columns[c]] == [TIMESTAMP] + columns[..c + 1];
        output := output + "," + column;
      }
      assert columns[..|columns|] == columns;
      RecordGrows([TIMESTAMP] + columns, EXTRA);
      ExtraIsPlain();
      output := output + ",";
      output := output + EXTRA;
      output := output + "\n";
    }

    method WriteRecord(record: string, system: SystemCalls, outcomes: seq<WriteOutcome>)
      returns (ok: bool, written: nat)
      modifies this`file
      ensures var output := Output(old(file), columns, record);
              && written <= |output|
              && file == old(file) + output[..written]
              && written == (if Writable(system) then Progress(|output|, outcomes) else 0)
              && (ok <==> Writable(system) && written == |output| && system.unlocked && system.closed)
    {
      ok, written := true, 0;
      assert forall text: string :: file + text[..0] == file;
      if !system.openable {
        return false, 0;
      }
      if !system.locked {
        ok := false;
      } else {
        if !system.measured {
          ok := false;
        }
        var output := "";
        if ok && |file| == 0 {
          output := HeaderLine();
        }
        output := output + record;
        if ok {
          assert output == Output(file, columns, record);
          ok, written := WriteAll(output, outcomes);
        }
        if !system.unlocked && ok {
          ok := false;
        }
      }
      if !system.closed && ok {
        ok := false;
      }
    }

    /** The entries without a column, collected one by one. */
    method CollectExtra(entries: seq<Entry>) returns (extra: seq<Entry>)
      ensures extra == Spill(columns, entries)
    {
      extra := [];
      for e := 0 to |entries|
        invariant extra == Spill(columns, entries[..e])
      {
        SpillGrows(columns, entries[..e], entries[e]);
        assert entries[..e] + [entries[e]] == entries[..e + 1];
        if entries[e].key !in columns {
          extra := extra + [entries[e]];
        }
      }
      assert entries[..|entries|] == entries;
    }

    /** The row for a status, cell by cell. */
    method BuildRecord(entries: seq<Entry>, timestamp: string) returns (record: string)
      ensures record == Record(RowValues(dump, timestamp, columns, entries)) + "\n"
    {
      record := CsvField(timestamp);
      ghost var cells := Cells(dump, columns, entries);
      for c := 0 to |columns|
        invariant record == Record([timestamp] + cells[..c])
      {
        RecordGrows([timestamp] + cells[..c], cells[c]);
        assert [timestamp] + cells[..c] + [cells[c]] == [timestamp] + cells[..c + 1];
        record := record + ",";
        var found := Find(entries, columns[c]);
        if found.Some? {
          var text := CsvField(ValueField(dump, found.value));
          record := record + text;
        }
      }
      assert cells[..|columns|] == cells;
      var extra := CollectExtra(entries);
      RecordGrows([timestamp] + cells, ExtraCell(dump, columns, entries));
      record := record + ",";
      if extra != [] {
        var text := CsvField(dump(Object(extra)));
        record := record + text;
      }
      record := record + "\n";
    }

    /** The first status fixes the columns. */
    method FixColumns(entries: seq<Entry>)
      requires columns == []
      modifies this`columns
      ensures columns == FirstColumns(entries)
    {
      for e := 0 to |entries|
        invariant columns == RegularKeys(entries[..e])
      {
        RegularKeysGrow(entries[..e], entries[e]);
        assert entries[..e] + [entries[e]] == entries[..e + 1];
        if entries[e].key != TIMESTAMP && entries[e].key != EXTRA {
          columns := columns + [entries[e].key];
        }
      }
      assert entries[..|entries|] == entries;
      columns := Sort(columns);
    }

    /** `written` counts the characters that reached the file.  Writing all of them
        appends the row, whatever is reported afterwards; writing none leaves the file and
        at most fixes the columns. */
    method AppendEntries(entries: seq<Entry>, timestamp: string, system: SystemCalls, outcomes: seq<WriteOutcome>)
      returns (ok: bool, written: nat)
      requires Valid()
      modifies this
      ensures var output := AppendOutput(old(log), dump, timestamp, entries);
              && written <= |output| && file == old(file) + output[..written]
              && written == (if Writable(system) then Progress(|output|, outcomes) else 0)
              && (ok <==> Writable(system) && written == |output| && system.unlocked && system.closed)
              && (written == |output| ==> Valid() && log == AppendTo(old(log), dump, timestamp, entries))
              && (written == 0 < |output| ==> Valid() && log == old(log).(columns := columns))
      ensures columns == if old(columns) == [] then FirstColumns(entries) else old(columns)
    {
      ghost var output := AppendOutput(log, dump, timestamp, entries);
      var record := PrepareRow(entries, timestamp);
      ok, written := WriteRecord(record, system, outcomes);
      Note(entries, timestamp, written);
    }

    /** The log as a value follows what reached the file. */
    ghost method Note(entries: seq<Entry>, timestamp: string, written: nat)
      requires LineSafe(dump)
      requires columns == if log.columns == [] then FirstColumns(entries) else log.columns
      requires var output := AppendOutput(log, dump, timestamp, entries);
               written <= |output| && file == File(log) + output[..written]
      modifies `log
      ensures var output := AppendOutput(old(log), dump, timestamp, entries);
              && (written == |output| ==> Valid() && log == AppendTo(old(log), dump, timestamp, entries))
              && (written == 0 < |output| ==> Valid() && log == old(log).(columns := columns))
    {
      ghost var output := AppendOutput(log, dump, timestamp, entries);
      if written == |output| {
        AppendedFile(log, dump, timestamp, entries);
        assert output[..written] == output;
        log := AppendTo(log, dump, timestamp, entries);
      } else if written == 0 {
        assert File(log) + output[..0] == File(log);
        log := log.(columns := columns);
      }
    }

    /** The columns, if they are not fixed yet, and the row. */
    method PrepareRow(entries: seq<Entry>, timestamp: string) returns (record: string)
      requires Valid()
      modifies this`columns
      ensures columns == if old(columns) == [] then FirstColumns(entries) else old(columns)
      ensures Output(file, columns, record) == AppendOutput(log, dump, timestamp, entries)
    {
      if columns == [] {
        FixColumns(entries);
      }
      record := BuildRecord(entries, timestamp);
    }

    /** A status that is no object or empty is turned away and changes nothing. */
    method Append(status: Json, timestamp: string, system: SystemCalls, outcomes: seq<WriteOutcome>) returns (ok: bool)
      requires Valid()
      modifies this
      ensures !status.Object? || status.entries == [] ==> !ok && unchanged(this)
      ensures status.Object? && status.entries != [] ==>
                var output := AppendOutput(old(log), dump, timestamp, status.entries);
                && (ok <==> Writable(system) && system.unlocked && system.closed &&
                            Progress(|output|, outcomes) == |output|)
                && (ok ==> Valid() && log == AppendTo(old(log), dump, timestamp, status.entries))
    {
      if !status.Object? || status.entries == [] {
        return false;
      }
      var written;
      ok, written := AppendEntries(status.entries, timestamp, system, outcomes);
    }

    /** A restart takes the columns from the header line of the file, or refuses it. */
    method LoadHeader() returns (ok: bool)
      modifies this`columns
      ensures ok <==> HeaderColumns(file).Some?
      ensures ok ==> columns == HeaderColumns(file).value
    {
      columns := [];
      if file == "" {
        return true;
      }
      if file[|file| - 1] != '\n' {
        return false;
      }
      var header := StripCr(FirstLine(file));
      var parsed, fields := ParseCsvLine(header);
      if !parsed || |fields| < 2 || fields[0] != TIMESTAMP || fields[|fields| - 1] != EXTRA {
        return false;
      }
      ghost var names := fields[1..|fields| - 1];
      var seen: set<string> := {};
      for index := 1 to |fields| - 1
        invariant columns == names[..index - 1] && AcceptableNames(columns)
        invariant forall key :: key in seen <==> key in columns
      {
        assert names[index - 1] == fields[index];
        if fields[index] == "" || fields[index] == TIMESTAMP || fields[index] == EXTRA || fields[index] in seen {
          assert fields[index] in seen ==> !Distinct(names);
          return false;
        }
        seen := seen + {fields[index]};
        columns := columns + [fields[index]];
      }
      assert names[..|names|] == names;
      ok := true;
    }
  }

  lemma TimestampIsPlain()
    ensures Plain(TIMESTAMP)
  {}
}
