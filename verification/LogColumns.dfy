/** Columns and cells of the status log: which keys become columns, what a row holds, and
    that no key of a status is lost or duplicated on the way. */
module LogColumns {
  import opened Csv
  import opened Json
  import opened Strings

  const TIMESTAMP := "timestamp"
  const EXTRA := "_extra_json"

  predicate Reserved(key: string) {
    key == TIMESTAMP || key == EXTRA
  }

  // ----- Sorting the columns

  predicate Sorted(keys: seq<string>) {
    forall i, j | 0 <= i < j < |keys| :: Leq(keys[i], keys[j])
  }

  predicate Distinct(keys: seq<string>) {
    forall i, j | 0 <= i < j < |keys| :: keys[i] != keys[j]
  }

  function Insert(key: string, keys: seq<string>): seq<string> {
    if keys == [] || Leq(key, keys[0]) then [key] + keys
    else [keys[0]] + Insert(key, keys[1..])
  }

  function Sort(keys: seq<string>): seq<string> {
    if keys == [] then [] else Insert(keys[0], Sort(keys[1..]))
  }

  lemma {:induction false} InsertAdds(key: string, keys: seq<string>)
    ensures multiset(Insert(key, keys)) == multiset(keys) + multiset{key}
  {
    if keys != [] && !Leq(key, keys[0]) {
      InsertAdds(key, keys[1..]);
      assert keys == [keys[0]] + keys[1..];
    }
  }

  lemma {:induction false} InsertSorts(key: string, keys: seq<string>)
    requires Sorted(keys)
    ensures Sorted(Insert(key, keys))
  {
    if keys == [] {
    } else if Leq(key, keys[0]) {
      forall j | 0 <= j < |keys| ensures Leq(key, keys[j]) {
        if j > 0 { LeqTransitive(key, keys[0], keys[j]); }
      }
    } else {
      LeqTotal(key, keys[0]);
      var rest := keys[1..];
      var tail := Insert(key, rest);
      InsertSorts(key, rest);
      InsertAdds(key, rest);
      forall j | 0 <= j < |tail| ensures Leq(keys[0], tail[j]) {
        assert tail[j] in multiset(tail);
        assert tail[j] == key || tail[j] in rest;
      }
    }
  }

  /** Sorting yields the same keys in ascending order. */
  lemma {:induction false} SortSorts(keys: seq<string>)
    ensures Sorted(Sort(keys))
    ensures multiset(Sort(keys)) == multiset(keys)
  {
    if keys != [] {
      SortSorts(keys[1..]);
      InsertSorts(keys[0], Sort(keys[1..]));
      InsertAdds(keys[0], Sort(keys[1..]));
      assert keys == [keys[0]] + keys[1..];
    }
  }

  lemma {:induction false} DistinctCounts(keys: seq<string>)
    ensures Distinct(keys) <==> forall key :: multiset(keys)[key] <= 1
  {
    if keys != [] {
      DistinctCounts(keys[1..]);
      assert keys == [keys[0]] + keys[1..];
      assert multiset(keys) == multiset{keys[0]} + multiset(keys[1..]);
      if Distinct(keys) {
        assert keys[0] !in keys[1..];
      }
      if forall key :: multiset(keys)[key] <= 1 {
        assert forall key :: multiset(keys[1..])[key] <= multiset(keys)[key];
        assert Distinct(keys[1..]);
        assert multiset(keys)[keys[0]] == 1 + multiset(keys[1..])[keys[0]];
        forall i, j | 0 <= i < j < |keys| ensures keys[i] != keys[j] {
          assert keys[j] == keys[1..][j - 1] && keys[j] in multiset(keys[1..]);
          if i > 0 { assert keys[i] == keys[1..][i - 1]; }
        }
      }
    }
  }

  // ----- Columns and cells

  /** The keys of a status that may become columns, in the order of the status. */
  function RegularKeys(entries: seq<Entry>): seq<string> {
    if entries == [] then []
    else (if Reserved(entries[0].key) then [] else [entries[0].key]) + RegularKeys(entries[1..])
  }

  function FirstColumns(entries: seq<Entry>): seq<string> {
    Sort(RegularKeys(entries))
  }

  /** The text of a value inside a cell. */
  function ValueField(dump: Json -> string, value: Json): string {
    match value
    case Null => ""
    case Boolean(flag) => if flag then "1" else "0"
    case Number(_) => dump(value)
    case Text(text) => if OneLine(text) then text else dump(value)
    case Array(_) => dump(value)
    case Object(_) => dump(value)
  }

  function Cell(dump: Json -> string, column: string, entries: seq<Entry>): string {
    match Find(entries, column)
    case None => ""
    case Some(value) => ValueField(dump, value)
  }

  function Cells(dump: Json -> string, columns: seq<string>, entries: seq<Entry>): (cells: seq<string>)
    ensures |cells| == |columns|
    ensures forall i | 0 <= i < |columns| :: cells[i] == Cell(dump, columns[i], entries)
  {
    seq(|columns|, i requires 0 <= i < |columns| => Cell(dump, columns[i], entries))
  }

  /** The entries without a column of their own. */
  function Spill(columns: seq<string>, entries: seq<Entry>): seq<Entry> {
    if entries == [] then []
    else (if entries[0].key in columns then [] else [entries[0]]) + Spill(columns, entries[1..])
  }

  function ExtraCell(dump: Json -> string, columns: seq<string>, entries: seq<Entry>): string {
    if Spill(columns, entries) == [] then "" else dump(Object(Spill(columns, entries)))
  }

  function RowValues(dump: Json -> string, timestamp: string, columns: seq<string>, entries: seq<Entry>): seq<string> {
    [timestamp] + Cells(dump, columns, entries) + [ExtraCell(dump, columns, entries)]
  }

  function HeaderValues(columns: seq<string>): seq<string> {
    [TIMESTAMP] + columns + [EXTRA]
  }

  lemma {:induction false} RegularKeysAreTheKeys(entries: seq<Entry>)
    requires DistinctKeys(entries)
    ensures Distinct(RegularKeys(entries))
    ensures forall key :: key in RegularKeys(entries) <==>
                          !Reserved(key) && exists i :: 0 <= i < |entries| && entries[i].key == key
  {
    if entries != [] {
      var rest := entries[1..];
      RegularKeysAreTheKeys(rest);
      var keys := RegularKeys(entries);
      forall key ensures key in keys <==> !Reserved(key) && exists i :: 0 <= i < |entries| && entries[i].key == key {
        if i :| 0 <= i < |entries| && entries[i].key == key {
          assert i > 0 ==> rest[i - 1] == entries[i];
        }
        if i :| 0 <= i < |rest| && rest[i].key == key {
          assert entries[i + 1] == rest[i];
        }
      }
      assert entries[0].key !in RegularKeys(rest) by {
        forall i | 0 <= i < |rest| ensures rest[i].key != entries[0].key {
          assert rest[i] == entries[i + 1];
        }
      }
    }
  }

  /** The first status fixes the columns: its non-reserved keys, each once, ascending. */
  lemma FirstColumnsSpec(entries: seq<Entry>)
    requires DistinctKeys(entries)
    ensures Sorted(FirstColumns(entries)) && Distinct(FirstColumns(entries))
    ensures forall key :: key in FirstColumns(entries) <==>
                          && key != "timestamp" && key != "_extra_json"
                          && exists i :: 0 <= i < |entries| && entries[i].key == key
  {
    var keys := RegularKeys(entries);
    RegularKeysAreTheKeys(entries);
    SortSorts(keys);
    DistinctCounts(keys);
    DistinctCounts(Sort(keys));
    forall key ensures key in FirstColumns(entries) <==> key in keys {
      assert key in multiset(Sort(keys)) <==> key in multiset(keys);
    }
  }

  lemma {:induction false} SpillMembers(columns: seq<string>, entries: seq<Entry>)
    requires DistinctKeys(entries)
    ensures DistinctKeys(Spill(columns, entries))
    ensures forall entry :: entry in Spill(columns, entries) <==> entry in entries && entry.key !in columns
  {
    if entries != [] {
      var rest := entries[1..];
      SpillMembers(columns, rest);
      assert entries == [entries[0]] + rest;
      var spill := Spill(columns, rest);
      forall j | 0 <= j < |spill| ensures entries[0].key != spill[j].key {
        assert spill[j] in rest;
      }
    }
  }

  /** What the text of a cell says of a value: nothing for null, 1 and 0 for the booleans, a text
      of one line as it is, and everything else in its JSON form. */
  predicate Shows(dump: Json -> string, text: string, value: Json) {
    match value
    case Null => text == ""
    case Boolean(flag) => (flag ==> text == "1") && (!flag ==> text == "0")
    case Text(plain) => text == if '\n' in plain || '\r' in plain then dump(value) else plain
    case _ => text == dump(value)
  }

  /** The entries that have no column, in some order. */
  ghost predicate Spilled(spilled: seq<Entry>, columns: seq<string>, entries: seq<Entry>) {
    DistinctKeys(spilled) && forall entry :: entry in spilled <==> entry in entries && entry.key !in columns
  }

  /** `values` is a record of the status: every entry in the one column that carries its
      key, columns without an entry empty, the entries without a column in the last cell. */
  ghost predicate Represents(values: seq<string>, dump: Json -> string, timestamp: string,
                             columns: seq<string>, entries: seq<Entry>)
  {
    && |values| == |columns| + 2
    && values[0] == timestamp
    && (forall i, c | 0 <= i < |entries| && 0 <= c < |columns| && columns[c] == entries[i].key ::
          Shows(dump, values[c + 1], entries[i].value))
    && (forall c | 0 <= c < |columns| && (forall i | 0 <= i < |entries| :: entries[i].key != columns[c]) ::
          values[c + 1] == "")
    && exists spilled: seq<Entry> ::
         Spilled(spilled, columns, entries) &&
         values[|columns| + 1] == if spilled == [] then "" else dump(Object(spilled))
  }

  lemma RowCell(dump: Json -> string, timestamp: string, columns: seq<string>, entries: seq<Entry>, c: nat)
    requires DistinctKeys(entries) && c < |columns|
    ensures var cell := RowValues(dump, timestamp, columns, entries)[c + 1];
            && (forall i | 0 <= i < |entries| && columns[c] == entries[i].key ::
                Shows(dump, cell, entries[i].value))
            && ((forall i | 0 <= i < |entries| :: entries[i].key != columns[c]) ==> cell == "")
  {
    assert RowValues(dump, timestamp, columns, entries)[c + 1] == Cells(dump, columns, entries)[c];
    CellShows(dump, columns[c], entries);
  }

  lemma CellShows(dump: Json -> string, column: string, entries: seq<Entry>)
    requires DistinctKeys(entries)
    ensures forall i | 0 <= i < |entries| && column == entries[i].key ::
              Shows(dump, Cell(dump, column, entries), entries[i].value)
    ensures (forall i | 0 <= i < |entries| :: entries[i].key != column) ==> Cell(dump, column, entries) == ""
  {
    if i :| 0 <= i < |entries| && column == entries[i].key {
      FindEntry(entries, i);
      FieldShows(dump, entries[i].value);
    } else {
      FindNothing(entries, column);
    }
  }

  lemma FieldShows(dump: Json -> string, value: Json)
    ensures Shows(dump, ValueField(dump, value), value)
  {}

  lemma RowRepresents(dump: Json -> string, timestamp: string, columns: seq<string>, entries: seq<Entry>)
    requires DistinctKeys(entries)
    ensures Represents(RowValues(dump, timestamp, columns, entries), dump, timestamp, columns, entries)
  {
    forall c | 0 <= c < |columns|
      ensures forall i | 0 <= i < |entries| && columns[c] == entries[i].key ::
                Shows(dump, RowValues(dump, timestamp, columns, entries)[c + 1], entries[i].value)
      ensures (forall i | 0 <= i < |entries| :: entries[i].key != columns[c]) ==>
                RowValues(dump, timestamp, columns, entries)[c + 1] == ""
    {
      RowCell(dump, timestamp, columns, entries, c);
    }
    SpillMembers(columns, entries);
    assert Spilled(Spill(columns, entries), columns, entries);
  }

  /** No key of a status is lost or duplicated: parsing the written row gives back every
      entry, and each entry is either in a column or in the spilled object, never both. */
  lemma StatusPreserved(dump: Json -> string, timestamp: string, columns: seq<string>, entries: seq<Entry>)
    requires DistinctKeys(entries)
    ensures var parsed := Parse(Record(RowValues(dump, timestamp, columns, entries)));
            parsed.Some? && Represents(parsed.value, dump, timestamp, columns, entries)
    ensures DistinctKeys(Spill(columns, entries))
    ensures forall entry :: entry in Spill(columns, entries) <==> entry in entries && entry.key !in columns
  {
    RowRepresents(dump, timestamp, columns, entries);
    PrintParseRoundTrip(RowValues(dump, timestamp, columns, entries));
    SpillMembers(columns, entries);
  }

  /** The text form of a value is never empty, and no two values share it. */
  ghost predicate Faithful(dump: Json -> string) {
    (forall value: Json :: dump(value) != "") && forall a: Json, b: Json | dump(a) == dump(b) :: a == b
  }

  /** A cell is empty exactly if the status has no such key, or null or an empty text for it. */
  lemma EmptyCellExactly(dump: Json -> string, column: string, entries: seq<Entry>)
    requires DistinctKeys(entries) && Faithful(dump)
    ensures Cell(dump, column, entries) == "" <==>
            || (forall i | 0 <= i < |entries| :: entries[i].key != column)
            || exists i :: 0 <= i < |entries| && entries[i].key == column && entries[i].value in [Null, Text("")]
  {
    if i :| 0 <= i < |entries| && entries[i].key == column {
      FindEntry(entries, i);
    } else {
      FindNothing(entries, column);
    }
  }

  /** Two numbers, booleans, lists or objects in a cell look alike only if they are equal, and so
      do two texts that both fit a line or both do not. */
  lemma EqualCells(dump: Json -> string, a: Json, b: Json)
    requires Faithful(dump) && ValueField(dump, a) == ValueField(dump, b)
    ensures a.Number? && b.Number? ==> a == b
    ensures a.Boolean? && b.Boolean? ==> a == b
    ensures (a.Array? || a.Object?) && (b.Array? || b.Object? || b.Number?) ==> a == b
    ensures a.Text? && b.Text? && (OneLine(a.text) <==> OneLine(b.text)) ==> a == b
  {}

  lemma CellIsOneLine(dump: Json -> string, column: string, entries: seq<Entry>)
    requires LineSafe(dump)
    ensures OneLine(Cell(dump, column, entries))
  {}

  lemma RecordIsOneLine(values: seq<string>)
    requires values != [] && forall i | 0 <= i < |values| :: OneLine(values[i])
    ensures OneLine(Record(values))
  {
    RecordKeepsOut(values, '\n');
    RecordKeepsOut(values, '\r');
  }

  /** A row never breaks its physical line. */
  lemma RowIsOneLine(dump: Json -> string, timestamp: string, columns: seq<string>, entries: seq<Entry>)
    requires LineSafe(dump) && OneLine(timestamp)
    ensures OneLine(Record(RowValues(dump, timestamp, columns, entries)))
  {
    var cells := Cells(dump, columns, entries);
    forall c | 0 <= c < |columns| ensures OneLine(cells[c]) {
      CellIsOneLine(dump, columns[c], entries);
    }
    RecordIsOneLine(RowValues(dump, timestamp, columns, entries));
  }

  predicate HasRegularKey(entries: seq<Entry>) {
    exists i :: 0 <= i < |entries| && !Reserved(entries[i].key)
  }

  lemma RegularKeyFixesColumns(entries: seq<Entry>)
    requires DistinctKeys(entries)
    ensures FirstColumns(entries) != [] <==> HasRegularKey(entries)
  {
    FirstColumnsSpec(entries);
    if FirstColumns(entries) != [] {
      assert FirstColumns(entries)[0] in FirstColumns(entries);
    }
    if i :| 0 <= i < |entries| && !Reserved(entries[i].key) {
      assert entries[i].key in FirstColumns(entries);
    }
  }
}
