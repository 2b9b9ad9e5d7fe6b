/** The JSON values the status log handles.  The text form of a value is left to a
    `dump` function; of the library that provides it only one fact is used. */
module Json {
  import opened Options
  import opened Csv

  datatype Json =
    | Null
    | Boolean(flag: bool)
    | Number(digits: string)
    | Text(text: string)
    | Array(items: seq<Json>)
    | Object(entries: seq<Entry>)

  datatype Entry = Entry(key: string, value: Json)

  /** A JSON object binds each key once. */
  predicate DistinctKeys(entries: seq<Entry>) {
    forall i, j | 0 <= i < j < |entries| :: entries[i].key != entries[j].key
  }

  function Find(entries: seq<Entry>, key: string): Option<Json> {
    if entries == [] then None
    else if entries[0].key == key then Some(entries[0].value)
    else Find(entries[1..], key)
  }

  predicate OneLine(text: string) {
    !Contains(text, '\n') && !Contains(text, '\r')
  }

  /** Dumped JSON escapes every line break. */
  ghost predicate LineSafe(dump: Json -> string) {
    forall value: Json :: OneLine(dump(value))
  }

  lemma {:induction false} FindEntry(entries: seq<Entry>, i: nat)
    requires DistinctKeys(entries) && i < |entries|
    ensures Find(entries, entries[i].key) == Some(entries[i].value)
  {
    if i > 0 {
      assert entries[0].key != entries[i].key;
      FindEntry(entries[1..], i - 1);
    }
  }

  lemma {:induction false} FindNothing(entries: seq<Entry>, key: string)
    requires forall i | 0 <= i < |entries| :: entries[i].key != key
    ensures Find(entries, key) == None
  {
    if entries != [] {
      assert entries[0].key != key;
      FindNothing(entries[1..], key);
    }
  }
}
