/** The CSV printer and parser of the status log.  The quoting rules are those of
    section 2 of RFC 4180: a field may always be enclosed in double quotes, must be
    when it holds a comma, a double quote or a line break, and doubles its quotes. */
module Csv {
  import opened Options

  predicate Special(c: char) {
    c == ',' || c == '"' || c == '\r' || c == '\n'
  }

  predicate Plain(value: string) {
    forall i | 0 <= i < |value| :: !Special(value[i])
  }

  /** The value with every double quote written twice. */
  function Doubled(value: string): string {
    if value == "" then ""
    else (if value[0] == '"' then "\"\"" else [value[0]]) + Doubled(value[1..])
  }

  function Quoted(value: string): string {
    "\"" + Doubled(value) + "\""
  }

  /** The text the printer writes for a value: quotes only where they are needed. */
  function Field(value: string): string {
    if Plain(value) then value else Quoted(value)
  }

  /** `text` is one of the spellings RFC 4180 allows for `value`. */
  predicate Encodes(text: string, value: string) {
    text == Quoted(value) || (text == value && Plain(value))
  }

  function Join(texts: seq<string>): string
    requires texts != []
  {
    if |texts| == 1 then texts[0] else texts[0] + "," + Join(texts[1..])
  }

  function Fields(values: seq<string>): (texts: seq<string>)
    ensures |texts| == |values|
    ensures forall i | 0 <= i < |values| :: texts[i] == Field(values[i])
  {
    seq(|values|, i requires 0 <= i < |values| => Field(values[i]))
  }

  /** One record without its line end. */
  function Record(values: seq<string>): string
    requires values != []
  {
    Join(Fields(values))
  }

  method CsvField(value: string) returns (escaped: string)
    ensures escaped == Field(value)
  {
    if Plain(value) {
      return value;
    }
    escaped := "\"";
    for i := 0 to |value|
      invariant escaped + Doubled(value[i..]) == "\"" + Doubled(value)
    {
      assert value[i..][1..] == value[i + 1..];
      ghost var before := escaped;
      if value[i] == '"' {
        escaped := escaped + "\"";
      }
      escaped := escaped + [value[i]];
      assert escaped == before + (if value[i] == '"' then "\"\"" else [value[i]]);
      assert escaped + Doubled(value[i + 1..]) == before + Doubled(value[i..]);
    }
    assert value[|value|..] == "";
    escaped := escaped + "\"";
  }

  /** What the parser still has to read, given the field under construction and the
      fields completed so far. */
  function Scan(rest: string, field: string, quoted: bool, fields: seq<string>): Option<seq<string>>
    decreases |rest|
  {
    if rest == "" then
      if quoted then None else Some(fields + [field])
    else if quoted then
      if rest[0] != '"' then Scan(rest[1..], field + [rest[0]], true, fields)
      else if |rest| > 1 && rest[1] == '"' then Scan(rest[2..], field + ['"'], true, fields)
      else Scan(rest[1..], field, false, fields)
    else if rest[0] == ',' then Scan(rest[1..], "", false, fields + [field])
    else if rest[0] == '"' && field == "" then Scan(rest[1..], field, true, fields)
    else Scan(rest[1..], field + [rest[0]], false, fields)
  }

  function Parse(line: string): Option<seq<string>> {
    Scan(line, "", false, [])
  }

  method ParseCsvLine(line: string) returns (ok: bool, fields: seq<string>)
    ensures ok <==> Parse(line).Some?
    ensures ok ==> Parse(line) == Some(fields)
  {
    fields := [];
    var field := "";
    var quoted := false;
    var index := 0;
    while index < |line|
      invariant 0 <= index <= |line|
      invariant Scan(line[index..], field, quoted, fields) == Parse(line)
    {
      var character := line[index];
      var rest := line[index..];
      assert rest[0] == character && rest[1..] == line[index + 1..];
      if quoted {
        if character == '"' {
          if index + 1 < |line| && line[index + 1] == '"' {
            assert rest[2..] == line[index + 2..];
            field := field + ['"'];
            index := index + 1;
          } else {
            quoted := false;
          }
        } else {
          field := field + [character];
        }
      } else if character == ',' {
        fields := fields + [field];
        field := "";
      } else if character == '"' && field == "" {
        quoted := true;
      } else {
        field := field + [character];
      }
      index := index + 1;
    }
    if quoted {
      return false, fields;
    }
    fields := fields + [field];
    ok := true;
  }

  // ----- Printing and parsing undo each other

  lemma {:induction false} ScanPlain(value: string, rest: string, field: string, fields: seq<string>)
    requires Plain(value)
    ensures Scan(value + rest, field, false, fields) == Scan(rest, field + value, false, fields)
  {
    if value == "" {
      assert value + rest == rest && field + value == field;
    } else {
      assert (value + rest)[1..] == value[1..] + rest;
      ScanPlain(value[1..], rest, field + [value[0]], fields);
      assert field + [value[0]] + value[1..] == field + value;
    }
  }

  lemma {:induction false} ScanDoubled(value: string, rest: string, field: string, fields: seq<string>)
    requires rest == "" || rest[0] != '"'
    ensures Scan(Doubled(value) + "\"" + rest, field, true, fields) == Scan(rest, field + value, false, fields)
  {
    var text := Doubled(value) + "\"" + rest;
    if value == "" {
      assert text[1..] == rest && field + value == field;
    } else {
      var tail := Doubled(value[1..]) + "\"" + rest;
      if value[0] == '"' {
        assert text[2..] == tail;
      } else {
        assert text[1..] == tail;
      }
      ScanDoubled(value[1..], rest, field + [value[0]], fields);
      assert field + [value[0]] + value[1..] == field + value;
    }
  }

  /** One spelled field is read back as its value, up to the comma or the line end. */
  lemma ScanField(text: string, value: string, rest: string, fields: seq<string>)
    requires Encodes(text, value)
    requires rest == "" || rest[0] == ','
    ensures Scan(text + rest, "", false, fields) == Scan(rest, value, false, fields)
  {
    assert "" + value == value;
    if text == Quoted(value) {
      assert (text + rest)[1..] == Doubled(value) + "\"" + rest;
      ScanDoubled(value, rest, "", fields);
    } else {
      ScanPlain(value, rest, "", fields);
    }
  }

  lemma {:induction false} ScanRecord(texts: seq<string>, values: seq<string>, fields: seq<string>)
    requires |texts| == |values| > 0
    requires forall i | 0 <= i < |texts| :: Encodes(texts[i], values[i])
    ensures Scan(Join(texts), "", false, fields) == Some(fields + values)
  {
    if |texts| == 1 {
      assert texts[0] + "" == texts[0];
      ScanField(texts[0], values[0], "", fields);
      assert values == [values[0]];
    } else {
      var rest := "," + Join(texts[1..]);
      assert Join(texts) == texts[0] + rest;
      ScanField(texts[0], values[0], rest, fields);
      assert rest[1..] == Join(texts[1..]);
      ScanRecord(texts[1..], values[1..], fields + [values[0]]);
      assert fields + [values[0]] + values[1..] == fields + values;
    }
  }

  /** Every spelling of a record that RFC 4180 allows is parsed to its values, so the
      parser does not depend on when a writer chooses to quote. */
  lemma ParseAcceptsRfc4180(texts: seq<string>, values: seq<string>)
    requires |texts| == |values| > 0
    requires forall i | 0 <= i < |texts| :: Encodes(texts[i], values[i])
    ensures Parse(Join(texts)) == Some(values)
  {
    ScanRecord(texts, values, []);
    assert [] + values == values;
  }

  /** Print, then parse: any non-empty list of arbitrary strings comes back. */
  lemma PrintParseRoundTrip(values: seq<string>)
    requires values != []
    ensures Parse(Record(values)) == Some(values)
  {
    ParseAcceptsRfc4180(Fields(values), values);
  }

  /** Two records print alike only if they are equal. */
  lemma PrintInjective(left: seq<string>, right: seq<string>)
    requires left != [] && right != []
    requires Record(left) == Record(right)
    ensures left == right
  {
    PrintParseRoundTrip(left);
    PrintParseRoundTrip(right);
  }

  // ----- Physical lines

  predicate Contains(text: string, c: char) {
    exists i :: 0 <= i < |text| && text[i] == c
  }

  lemma {:induction false} DoubledKeepsOut(value: string, c: char)
    requires c != '"' && !Contains(value, c)
    ensures !Contains(Doubled(value), c)
  {
    if value != "" {
      assert !Contains(value[1..], c) by {
        forall i | 0 <= i < |value[1..]| ensures value[1..][i] != c {
          assert value[1..][i] == value[i + 1];
        }
      }
      DoubledKeepsOut(value[1..], c);
    }
  }

  lemma {:induction false} RecordKeepsOut(values: seq<string>, c: char)
    requires values != [] && c != '"' && c != ','
    requires forall i | 0 <= i < |values| :: !Contains(values[i], c)
    ensures !Contains(Record(values), c)
  {
    DoubledKeepsOut(values[0], c);
    if |values| > 1 {
      assert Fields(values)[1..] == Fields(values[1..]);
      RecordKeepsOut(values[1..], c);
    }
  }

  /** A value is written as it is exactly if it holds no comma, double quote or line break; else
      it stands between double quotes. */
  lemma FieldExactly(value: string)
    ensures Field(value) == value <==> ',' !in value && '"' !in value && '\r' !in value && '\n' !in value
    ensures Field(value) != value ==>
              |Field(value)| >= 2 && Field(value)[0] == '"' && Field(value)[|Field(value)| - 1] == '"'
  {
    QuotedIsLonger(value);
  }

  lemma {:induction false} QuotedIsLonger(value: string)
    ensures |Doubled(value)| >= |value|
  {
    if value != "" { QuotedIsLonger(value[1..]); }
  }
}
