/** The status log as a value, over any sequence of appends and truncations. */
module LogFile {
  import opened Csv
  import opened Json
  import opened LogColumns

  /** `header` holds the columns in force when the header line was last written. */
  datatype Log = Log(columns: seq<string>, header: seq<string>, rows: seq<seq<string>>)

  const FRESH := Log([], [], [])

  datatype Operation =
    | Append(timestamp: string, entries: seq<Entry>)
    | TruncateToEmpty

  function AppendTo(log: Log, dump: Json -> string, timestamp: string, entries: seq<Entry>): Log {
    var columns := if log.columns == [] then FirstColumns(entries) else log.columns;
    Log(columns, if log.rows == [] then columns else log.header,
        log.rows + [RowValues(dump, timestamp, columns, entries)])
  }

  function Apply(log: Log, dump: Json -> string, operation: Operation): Log {
    match operation
    case Append(timestamp, entries) => AppendTo(log, dump, timestamp, entries)
    case TruncateToEmpty => log.(rows := [])
  }

  function ApplyAll(log: Log, dump: Json -> string, operations: seq<Operation>): Log
    decreases |operations|
  {
    if operations == [] then log
    else ApplyAll(Apply(log, dump, operations[0]), dump, operations[1..])
  }

  /** `append` turns away empty statuses; a JSON object has distinct keys. */
  predicate Proper(operation: Operation) {
    operation.Append? ==>
      OneLine(operation.timestamp) && operation.entries != [] && DistinctKeys(operation.entries)
  }

  function RowLines(rows: seq<seq<string>>): string {
    if rows == [] then ""
    else (if rows[0] == [] then "" else Record(rows[0])) + "\n" + RowLines(rows[1..])
  }

  /** The contents of the file. */
  function File(log: Log): string {
    if log.rows == [] then "" else Record(HeaderValues(log.header)) + "\n" + RowLines(log.rows)
  }

  /** The header matches the columns and every row is one physical line with a field for
      the timestamp, one for each column and one for the spilled entries. */
  ghost predicate Aligned(log: Log) {
    log.rows != [] ==>
      && log.header == log.columns
      && forall r | 0 <= r < |log.rows| :: |log.rows[r]| == |log.columns| + 2 && OneLine(Record(log.rows[r]))
  }

  /** One append keeps the file aligned, with the single exception of an append that fixes
      the columns while the file already holds rows. */
  lemma AppendAlignedExactly(log: Log, dump: Json -> string, timestamp: string, entries: seq<Entry>)
    requires LineSafe(dump) && OneLine(timestamp) && Aligned(log)
    ensures Aligned(AppendTo(log, dump, timestamp, entries)) <==>
            log.columns != [] || log.rows == [] || FirstColumns(entries) == []
  {
    var after := AppendTo(log, dump, timestamp, entries);
    RowIsOneLine(dump, timestamp, after.columns, entries);
    assert |after.rows| == |log.rows| + 1 &&
           after.rows[|log.rows|] == RowValues(dump, timestamp, after.columns, entries);
    assert forall r | 0 <= r < |log.rows| :: after.rows[r] == log.rows[r];
  }

  /** Once a non-empty column set is fixed it stays, and the file stays aligned over any
      sequence of appends and truncations. */
  lemma {:induction false} AlignedForever(log: Log, dump: Json -> string, operations: seq<Operation>)
    requires LineSafe(dump) && log.columns != [] && Aligned(log)
    requires forall i | 0 <= i < |operations| :: Proper(operations[i])
    ensures var end := ApplyAll(log, dump, operations);
            end.columns == log.columns && Aligned(end)
    decreases |operations|
  {
    if operations != [] {
      if operations[0].Append? {
        AppendAlignedExactly(log, dump, operations[0].timestamp, operations[0].entries);
      }
      AlignedForever(Apply(log, dump, operations[0]), dump, operations[1..]);
    }
  }

  /** A log begun with a status that has a regular key is aligned over its whole life, with
      exactly that status' keys as columns. */
  lemma FreshLogAligned(dump: Json -> string, first: Operation, operations: seq<Operation>)
    requires LineSafe(dump) && first.Append? && Proper(first)
    requires forall i | 0 <= i < |operations| :: Proper(operations[i])
    requires HasRegularKey(first.entries)
    ensures var end := ApplyAll(FRESH, dump, [first] + operations);
            Aligned(end) && end.columns == FirstColumns(first.entries)
  {
    RegularKeyFixesColumns(first.entries);
    AppendAlignedExactly(FRESH, dump, first.timestamp, first.entries);
    AlignedForever(Apply(FRESH, dump, first), dump, operations);
    assert ([first] + operations)[1..] == operations;
  }

  /** The exception is real.  For a fresh log and a second status with a regular key, the
      file is aligned after both exactly when the first status already had a regular key. */
  lemma FirstStatusDecides(dump: Json -> string, first: Operation, second: Operation)
    requires LineSafe(dump) && first.Append? && second.Append? && Proper(first) && Proper(second)
    requires HasRegularKey(second.entries)
    ensures Aligned(ApplyAll(FRESH, dump, [first, second])) <==> HasRegularKey(first.entries)
  {
    var log := Apply(FRESH, dump, first);
    AppendAlignedExactly(FRESH, dump, first.timestamp, first.entries);
    AppendAlignedExactly(log, dump, second.timestamp, second.entries);
    RegularKeyFixesColumns(first.entries);
    RegularKeyFixesColumns(second.entries);
    assert ApplyAll(FRESH, dump, [first, second]) == Apply(log, dump, second) by {
      assert [first, second][1..] == [second] && [second][1..] == [];
      assert ApplyAll(FRESH, dump, [first, second]) == ApplyAll(log, dump, [second]);
    }
  }

  lemma ReservedFirstStatusMisaligns(dump: Json -> string)
    requires LineSafe(dump)
    ensures !Aligned(ApplyAll(FRESH, dump,
                              [Append("t", [Entry("timestamp", Null)]), Append("u", [Entry("rh", Null)])]))
  {
    var first, second := Append("t", [Entry("timestamp", Null)]), Append("u", [Entry("rh", Null)]);
    assert !Reserved(second.entries[0].key);
    FirstStatusDecides(dump, first, second);
  }

  // ----- What the log holds

  /** The appends since the file was cut to nothing the last time. */
  function Kept(operations: seq<Operation>): seq<Operation> {
    if operations == [] then []
    else
      var last := operations[|operations| - 1];
      if last.TruncateToEmpty? then [] else Kept(operations[..|operations| - 1]) + [last]
  }

  /** The rows represent the statuses of these appends, in order. */
  ghost predicate Holds(log: Log, dump: Json -> string, columns: seq<string>, kept: seq<Operation>) {
    && log.columns == columns && |log.rows| == |kept|
    && forall i | 0 <= i < |kept| ::
         kept[i].Append? && Represents(log.rows[i], dump, kept[i].timestamp, columns, kept[i].entries)
  }

  /** They are the rows written for these appends. */
  predicate Written(log: Log, dump: Json -> string, columns: seq<string>, kept: seq<Operation>) {
    && log.columns == columns && |log.rows| == |kept|
    && forall i | 0 <= i < |kept| ::
         kept[i].Append? && log.rows[i] == RowValues(dump, kept[i].timestamp, columns, kept[i].entries)
  }

  lemma ApplyWrites(log: Log, dump: Json -> string, columns: seq<string>, kept: seq<Operation>, last: Operation)
    requires Written(log, dump, columns, kept) && columns != []
    ensures Written(Apply(log, dump, last), dump, columns, if last.TruncateToEmpty? then [] else kept + [last])
  {}

  /** Rows written represent their statuses. */
  lemma WrittenHolds(log: Log, dump: Json -> string, columns: seq<string>, kept: seq<Operation>)
    requires Written(log, dump, columns, kept)
    requires forall i | 0 <= i < |kept| :: Proper(kept[i])
    ensures Holds(log, dump, columns, kept)
  {
    forall i | 0 <= i < |kept|
      ensures Represents(log.rows[i], dump, kept[i].timestamp, columns, kept[i].entries)
    {
      RowRepresents(dump, kept[i].timestamp, columns, kept[i].entries);
    }
  }

  lemma {:induction false} KeptAreProper(operations: seq<Operation>)
    requires forall i | 0 <= i < |operations| :: Proper(operations[i])
    ensures forall i | 0 <= i < |Kept(operations)| :: Proper(Kept(operations)[i])
    decreases |operations|
  {
    if operations != [] { KeptAreProper(operations[..|operations| - 1]); }
  }

  lemma {:induction false} KeptMore(operations: seq<Operation>, last: Operation)
    ensures Kept(operations + [last]) == if last.TruncateToEmpty? then [] else Kept(operations) + [last]
  {
    assert (operations + [last])[..|operations|] == operations;
  }

  lemma {:induction false} AppliedMore(log: Log, dump: Json -> string, operations: seq<Operation>, last: Operation)
    ensures ApplyAll(log, dump, operations + [last]) == Apply(ApplyAll(log, dump, operations), dump, last)
    decreases |operations|
  {
    var longer := operations + [last];
    if operations == [] {
      assert longer[0] == last && longer[1..] == [];
    } else {
      assert longer[0] == operations[0] && longer[1..] == operations[1..] + [last];
      AppliedMore(Apply(log, dump, operations[0]), dump, operations[1..], last);
    }
  }

  lemma {:induction false} NextWritten(log: Log, dump: Json -> string, columns: seq<string>, before: seq<Operation>,
                                       last: Operation)
    requires Written(ApplyAll(log, dump, before), dump, columns, Kept(before)) && columns != []
    ensures Written(ApplyAll(log, dump, before + [last]), dump, columns, Kept(before + [last]))
  {
    AppliedMore(log, dump, before, last);
    KeptMore(before, last);
    ApplyWrites(ApplyAll(log, dump, before), dump, columns, Kept(before), last);
  }

  lemma {:induction false} AllWritten(log: Log, dump: Json -> string, operations: seq<Operation>)
    requires log.columns != [] && log.rows == []
    ensures Written(ApplyAll(log, dump, operations), dump, log.columns, Kept(operations))
    decreases |operations|
  {
    if operations != [] {
      var n := |operations| - 1;
      AllWritten(log, dump, operations[..n]);
      NextWritten(log, dump, log.columns, operations[..n], operations[n]);
      assert operations[..n] + [operations[n]] == operations;
    }
  }

  lemma {:induction false} FreshWritten(dump: Json -> string, all: seq<Operation>)
    requires all != [] && all[0].Append? && FirstColumns(all[0].entries) != []
    ensures Written(ApplyAll(FRESH, dump, all), dump, FirstColumns(all[0].entries), Kept(all))
    decreases |all|
  {
    var n := |all| - 1;
    assert all[..n] + [all[n]] == all;
    if n == 0 {
      AppliedMore(FRESH, dump, [], all[0]);
      KeptMore([], all[0]);
      assert [] + [all[0]] == all;
    } else {
      FreshWritten(dump, all[..n]);
      NextWritten(FRESH, dump, FirstColumns(all[0].entries), all[..n], all[n]);
    }
  }

  /** Once its columns are fixed, an empty log holds, in order, a row for each status appended
      since the last truncation, and the row represents that status. */
  lemma {:induction false} LogHoldsStatuses(log: Log, dump: Json -> string, operations: seq<Operation>)
    requires log.columns != [] && log.rows == []
    requires forall i | 0 <= i < |operations| :: Proper(operations[i])
    ensures Holds(ApplyAll(log, dump, operations), dump, log.columns, Kept(operations))
  {
    AllWritten(log, dump, operations);
    KeptAreProper(operations);
    WrittenHolds(ApplyAll(log, dump, operations), dump, log.columns, Kept(operations));
  }

  /** The same from the first status on, if it has a regular key: it fixes the columns. */
  lemma {:induction false} FreshLogHolds(dump: Json -> string, all: seq<Operation>)
    requires all != [] && all[0].Append? && HasRegularKey(all[0].entries)
    requires forall i | 0 <= i < |all| :: Proper(all[i])
    ensures Holds(ApplyAll(FRESH, dump, all), dump, FirstColumns(all[0].entries), Kept(all))
  {
    RegularKeyFixesColumns(all[0].entries);
    FreshWritten(dump, all);
    KeptAreProper(all);
    WrittenHolds(ApplyAll(FRESH, dump, all), dump, FirstColumns(all[0].entries), Kept(all));
  }
}
